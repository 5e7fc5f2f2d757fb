/**
  The playback scheduler's timeline arithmetic (App.tsx `onmessage`): each
  decoded chunk starts at `max(cursor, currentTime)` and moves the cursor to its
  start plus its duration.
*/
module Playback {

  /** A chunk as the scheduler sees it: the output clock when it is scheduled and its length in seconds. */
  datatype Chunk = Chunk(arrival: real, duration: real)

  predicate WellFormed(chunks: seq<Chunk>)
  {
    forall i :: 0 <= i < |chunks| ==> chunks[i].arrival >= 0.0 && chunks[i].duration >= 0.0
  }

  /** `Math.max(nextStartTime, currentTime)`: never before the cursor, never in the past. */
  function Place(cursor: real, now: real): (start: real)
    ensures start >= cursor && start >= now
    ensures start == cursor || start == now
  {
    if cursor >= now then cursor else now
  }

  /**
    Planned start times of a run of chunks scheduled one after the other from
    `cursor`. The first is planned neither before `cursor` nor before it
    arrives; `StartsAfterArrival` extends the second to every chunk, and
    `NoGapNoOverlap` relates each start to the one before it.
  */
  function Starts(cursor: real, chunks: seq<Chunk>): (r: seq<real>)
    ensures |r| == |chunks|
    ensures |r| > 0 ==> r[0] >= cursor && r[0] >= chunks[0].arrival
    decreases |chunks|
  {
    if chunks == [] then []
    else
      var start := Place(cursor, chunks[0].arrival);
      [start] + Starts(start + chunks[0].duration, chunks[1..])
  }

  /** No chunk of a run is planned before it arrives. */
  lemma {:induction false} StartsAfterArrival(cursor: real, chunks: seq<Chunk>, i: nat)
    requires i < |chunks|
    ensures Starts(cursor, chunks)[i] >= chunks[i].arrival
    decreases i
  {
    var next := Place(cursor, chunks[0].arrival) + chunks[0].duration;
    if i > 0 {
      assert Starts(cursor, chunks)[i] == Starts(next, chunks[1..])[i - 1];
      StartsAfterArrival(next, chunks[1..], i - 1);
    }
  }

  /**
    The cursor after the run: the chunks' durations never overlap, so it ends
    at least their total duration past the starting cursor.
  */
  function FinalCursor(cursor: real, chunks: seq<Chunk>): (r: real)
    ensures chunks == [] ==> r == cursor
    ensures WellFormed(chunks) ==> r >= cursor + TotalDuration(chunks)
    decreases |chunks|
  {
    if chunks == [] then cursor
    else
      assert WellFormed(chunks) ==> WellFormed(chunks[1..]);
      FinalCursor(Place(cursor, chunks[0].arrival) + chunks[0].duration, chunks[1..])
  }

  function TotalDuration(chunks: seq<Chunk>): real
    decreases |chunks|
  {
    if chunks == [] then 0.0 else chunks[0].duration + TotalDuration(chunks[1..])
  }

  /**
    No overlap: chunk i+1 never starts before chunk i ends. No gap: it starts
    exactly when chunk i ends if and only if it was scheduled no later than that.
  */
  lemma {:induction false} NoGapNoOverlap(cursor: real, chunks: seq<Chunk>, i: nat)
    requires i + 1 < |chunks|
    ensures Starts(cursor, chunks)[i + 1] >= Starts(cursor, chunks)[i] + chunks[i].duration
    ensures Starts(cursor, chunks)[i + 1] == Starts(cursor, chunks)[i] + chunks[i].duration
        <==> chunks[i + 1].arrival <= Starts(cursor, chunks)[i] + chunks[i].duration
    decreases i
  {
    var start := Place(cursor, chunks[0].arrival);
    var next := start + chunks[0].duration;
    assert Starts(cursor, chunks) == [start] + Starts(next, chunks[1..]);
    if i > 0 {
      NoGapNoOverlap(next, chunks[1..], i - 1);
    } else {
      assert Starts(next, chunks[1..])[0] == Place(next, chunks[1].arrival);
    }
  }

  /** The last chunk ends where the cursor is left, and never before any earlier chunk's end. */
  lemma {:induction false} FinalCursorAfterStarts(cursor: real, chunks: seq<Chunk>)
    requires chunks != []
    ensures FinalCursor(cursor, chunks) == Starts(cursor, chunks)[|chunks| - 1] + chunks[|chunks| - 1].duration
    decreases |chunks|
  {
    var next := Place(cursor, chunks[0].arrival) + chunks[0].duration;
    if |chunks| > 1 {
      FinalCursorAfterStarts(next, chunks[1..]);
    }
  }

  /**
    A run in which every chunk is scheduled while the audio already queued has
    not run out (chunk k arrives by the time the chunks before it, played back
    to back from `cursor`, end) plays back to back: chunk k starts at the
    cursor plus the durations of the chunks before it, and the cursor ends at
    the cursor plus all the durations.
  */
  lemma {:induction false} GaplessRun(cursor: real, chunks: seq<Chunk>)
    requires ArrivesInTime(cursor, chunks)
    ensures FinalCursor(cursor, chunks) == cursor + TotalDuration(chunks)
    ensures forall k :: 0 <= k < |chunks| ==> Starts(cursor, chunks)[k] == cursor + TotalDuration(chunks[..k])
    decreases |chunks|
  {
    if chunks != [] {
      var next := cursor + chunks[0].duration;
      StillInTime(cursor, chunks);
      GaplessRun(next, chunks[1..]);
      forall k | 0 <= k < |chunks|
        ensures Starts(cursor, chunks)[k] == cursor + TotalDuration(chunks[..k])
      {
        StartOfGaplessRun(cursor, chunks, k);
      }
    }
  }

  /** Chunk k arrives by the time the chunks before it, played back to back from `cursor`, end. */
  predicate ArrivesInTime(cursor: real, chunks: seq<Chunk>)
  {
    forall k :: 0 <= k < |chunks| ==> chunks[k].arrival <= cursor + TotalDuration(chunks[..k])
  }

  /** The first chunk of a run arriving in time starts at the cursor, and the rest of the run arrives in time after it. */
  lemma StillInTime(cursor: real, chunks: seq<Chunk>)
    requires chunks != [] && ArrivesInTime(cursor, chunks)
    ensures Place(cursor, chunks[0].arrival) == cursor
    ensures ArrivesInTime(cursor + chunks[0].duration, chunks[1..])
  {
    assert chunks[..0] == [];
    forall k | 0 <= k < |chunks| - 1
      ensures chunks[1..][k].arrival <= cursor + chunks[0].duration + TotalDuration(chunks[1..][..k])
    {
      assert chunks[..k + 1][1..] == chunks[1..][..k];
    }
  }

  /** One start of a run that arrives in time, from the starts of its tail. */
  lemma StartOfGaplessRun(cursor: real, chunks: seq<Chunk>, k: nat)
    requires k < |chunks| && Place(cursor, chunks[0].arrival) == cursor
    requires forall j :: 0 <= j < |chunks| - 1 ==>
      Starts(cursor + chunks[0].duration, chunks[1..])[j] == cursor + chunks[0].duration + TotalDuration(chunks[1..][..j])
    ensures Starts(cursor, chunks)[k] == cursor + TotalDuration(chunks[..k])
  {
    assert Starts(cursor, chunks) == [cursor] + Starts(cursor + chunks[0].duration, chunks[1..]);
    if k == 0 {
      assert chunks[..0] == [];
    } else {
      assert chunks[..k][1..] == chunks[1..][..k - 1];
    }
  }

  /**
    A chunk that arrives after the starting cursor but while the one before it
    is still playing starts the moment that one ends.
  */
  lemma StreamingChunkJoinsQueue()
    ensures Starts(1.0, [Chunk(0.9, 0.25), Chunk(1.1, 0.25)]) == [1.0, 1.25]
    ensures FinalCursor(1.0, [Chunk(0.9, 0.25), Chunk(1.1, 0.25)]) == 1.5
  {
    var chunks := [Chunk(0.9, 0.25), Chunk(1.1, 0.25)];
    assert chunks[..0] == [] && chunks[..1] == [Chunk(0.9, 0.25)];
    assert TotalDuration(chunks[..1]) == 0.25;
    assert TotalDuration(chunks) == 0.5;
    GaplessRun(1.0, chunks);
  }

  /** Three 250 ms chunks arriving back to back from an idle timeline end 750 ms after the first arrived. */
  lemma ThreeQuarterSecondChunks(t0: real)
    requires t0 >= 0.0
    ensures FinalCursor(0.0, [Chunk(t0, 0.25), Chunk(t0 + 0.1, 0.25), Chunk(t0 + 0.2, 0.25)]) == t0 + 0.75
  {
    var chunks := [Chunk(t0, 0.25), Chunk(t0 + 0.1, 0.25), Chunk(t0 + 0.2, 0.25)];
    assert FinalCursor(0.0, chunks) == FinalCursor(t0 + 0.25, chunks[1..]);
    assert FinalCursor(t0 + 0.25, chunks[1..]) == FinalCursor(t0 + 0.5, chunks[2..]);
    assert FinalCursor(t0 + 0.5, chunks[2..]) == FinalCursor(t0 + 0.75, chunks[3..]);
  }
}
