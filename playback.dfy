/** The playback scheduling rule of the live session: each decoded chunk starts at the
    later of the time cursor and the output clock, and the cursor then moves to the
    chunk's end. Times are output-clock ticks. */
module Playback {

  /** Start time of a chunk arriving at clock time `now` when the cursor stands at `cursor`. */
  function StartTime(cursor: int, now: int): (start: int)
    ensures start >= cursor && start >= now
    ensures start == cursor || start == now
  {
    if cursor < now then now else cursor
  }

  /** A decoded chunk: the clock time at which it arrived and how long it plays. */
  datatype Arrival = Arrival(now: nat, duration: nat)

  /** The start times the rule gives to a run of chunks, starting from `cursor`. */
  function Starts(cursor: int, arrivals: seq<Arrival>): (r: seq<int>)
    ensures |r| == |arrivals|
    ensures arrivals != [] ==> r[0] == StartTime(cursor, arrivals[0].now)
    decreases |arrivals|
  {
    if arrivals == [] then []
    else
      var s := StartTime(cursor, arrivals[0].now);
      [s] + Starts(s + arrivals[0].duration, arrivals[1..])
  }

  /** Where the cursor stands after a run of chunks: never behind where it started, and
      never before the last chunk could have finished had it started on arrival. */
  function FinalCursor(cursor: int, arrivals: seq<Arrival>): (c: int)
    ensures c >= cursor
    ensures arrivals != [] ==> c >= arrivals[|arrivals| - 1].now + arrivals[|arrivals| - 1].duration
    decreases |arrivals|
  {
    if arrivals == [] then cursor
    else FinalCursor(StartTime(cursor, arrivals[0].now) + arrivals[0].duration, arrivals[1..])
  }

  /** Each chunk after the first starts at the later of its predecessor's end and its own arrival. */
  lemma {:induction false} StartsStep(cursor: int, arrivals: seq<Arrival>, k: nat)
    requires k + 1 < |arrivals|
    ensures Starts(cursor, arrivals)[k + 1] == StartTime(Starts(cursor, arrivals)[k] + arrivals[k].duration, arrivals[k + 1].now)
    decreases k
  {
    var s := StartTime(cursor, arrivals[0].now);
    var rest := arrivals[1..];
    assert Starts(cursor, arrivals) == [s] + Starts(s + arrivals[0].duration, rest);
    if k > 0 {
      StartsStep(s + arrivals[0].duration, rest, k - 1);
    }
  }

  /** No overlap: a chunk never starts before its predecessor has finished. */
  lemma {:induction false} NoOverlap(cursor: int, arrivals: seq<Arrival>, k: nat)
    requires k + 1 < |arrivals|
    ensures Starts(cursor, arrivals)[k + 1] >= Starts(cursor, arrivals)[k] + arrivals[k].duration
  {
    StartsStep(cursor, arrivals, k);
  }

  /** No gap: a chunk that arrives before its predecessor ends starts exactly where the
      predecessor ends; one that arrives later starts on arrival. */
  lemma {:induction false} NoGap(cursor: int, arrivals: seq<Arrival>, k: nat)
    requires k + 1 < |arrivals|
    ensures var finish := Starts(cursor, arrivals)[k] + arrivals[k].duration;
            (arrivals[k + 1].now <= finish <==> Starts(cursor, arrivals)[k + 1] == finish)
            && (arrivals[k + 1].now > finish ==> Starts(cursor, arrivals)[k + 1] == arrivals[k + 1].now)
  {
    StartsStep(cursor, arrivals, k);
  }

  /** Every chunk starts no earlier than it arrives and no earlier than the initial cursor. */
  lemma {:induction false} StartsBounds(cursor: int, arrivals: seq<Arrival>, k: nat)
    requires k < |arrivals|
    ensures Starts(cursor, arrivals)[k] >= arrivals[k].now
    ensures Starts(cursor, arrivals)[k] >= cursor
    decreases k
  {
    var s := StartTime(cursor, arrivals[0].now);
    assert Starts(cursor, arrivals) == [s] + Starts(s + arrivals[0].duration, arrivals[1..]);
    if k > 0 {
      StartsBounds(s + arrivals[0].duration, arrivals[1..], k - 1);
    }
  }

  /** After a non-empty run the cursor stands at the end of the last chunk. */
  lemma {:induction false} CursorAdvances(cursor: int, arrivals: seq<Arrival>)
    ensures arrivals != [] ==>
      FinalCursor(cursor, arrivals) == Starts(cursor, arrivals)[|arrivals| - 1] + arrivals[|arrivals| - 1].duration
    decreases |arrivals|
  {
    if arrivals != [] {
      var s := StartTime(cursor, arrivals[0].now);
      var rest := arrivals[1..];
      assert Starts(cursor, arrivals) == [s] + Starts(s + arrivals[0].duration, rest);
      CursorAdvances(s + arrivals[0].duration, rest);
    }
  }
}
