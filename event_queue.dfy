// The MIDI event queue of the audio crate, as an abstract sequence of
// timestamped synthesizer events: `enqueue` appends, `sort` orders by sample
// time, and `dequeue(t)` pops the events at the front of the queue that are
// due at or before sample `t`.

module EventQueue {
  import opened Sorting

  /** The synthesizer events the application sends. */
  datatype MidiEvent =
    | NoteOn(channel: nat, key: nat, vel: nat)
    | NoteOff(channel: nat, key: nat)
    | AllNotesOff(channel: nat)
    | AllSoundOff(channel: nat)

  /** An event scheduled at an absolute sample time. */
  datatype TimedEvent = TimedEvent(time: nat, event: MidiEvent)

  function TimeLe(a: TimedEvent, b: TimedEvent): bool
  {
    a.time <= b.time
  }

  lemma TimeLeIsTotalPreorder()
    ensures TotalPreorder(TimeLe)
  {
  }

  function Enqueue(q: seq<TimedEvent>, time: nat, event: MidiEvent): (r: seq<TimedEvent>)
    ensures |r| == |q| + 1 && r[..|q|] == q && r[|q|].time == time && r[|q|].event == event
  {
    q + [TimedEvent(time, event)]
  }

  /** Orders the queue by sample time. */
  function Sort(q: seq<TimedEvent>): (r: seq<TimedEvent>)
    ensures SortedBy(r, TimeLe)
    ensures multiset(r) == multiset(q)
  {
    TimeLeIsTotalPreorder();
    SortBySorted(q, TimeLe);
    SortBy(q, TimeLe)
  }

  /** Splits the queue into the events popped at sample `t` and the events
      left, which together are the queue. */
  function Dequeue(q: seq<TimedEvent>, t: nat): (r: (seq<TimedEvent>, seq<TimedEvent>))
    ensures r.0 + r.1 == q
  {
    if q == [] || q[0].time > t then ([], q)
    else
      var rest := Dequeue(q[1..], t);
      assert q == [q[0]] + q[1..];
      ([q[0]] + rest.0, rest.1)
  }

  /** Every popped event is due by `t`, and the front of what is left is not. */
  lemma {:induction false} DequeueBounds(q: seq<TimedEvent>, t: nat)
    ensures forall i :: 0 <= i < |Dequeue(q, t).0| ==> Dequeue(q, t).0[i].time <= t
    ensures Dequeue(q, t).1 != [] ==> Dequeue(q, t).1[0].time > t
  {
    if q != [] && q[0].time <= t {
      DequeueBounds(q[1..], t);
    }
  }

  /** The events of `q` due at or before `t`, in queue order. */
  function DueBy(q: seq<TimedEvent>, t: nat): (r: seq<TimedEvent>)
    ensures forall i :: 0 <= i < |r| ==> r[i].time <= t
  {
    if q == [] then []
    else if q[0].time <= t then [q[0]] + DueBy(q[1..], t)
    else DueBy(q[1..], t)
  }

  /** On a sorted queue, `dequeue(t)` pops exactly the events due by `t`
      and leaves only later events. */
  lemma {:induction false} DequeueSortedIsDueBy(q: seq<TimedEvent>, t: nat)
    requires SortedBy(q, TimeLe)
    ensures Dequeue(q, t).0 == DueBy(q, t)
    ensures forall i :: 0 <= i < |Dequeue(q, t).1| ==> Dequeue(q, t).1[i].time > t
  {
    if q != [] {
      assert SortedBy(q[1..], TimeLe);
      DequeueSortedIsDueBy(q[1..], t);
      if q[0].time > t {
        assert DueBy(q[1..], t) == [] by {
          forall i | 0 <= i < |q[1..]| ensures q[1..][i].time > t {
            assert TimeLe(q[0], q[i + 1]);
          }
          NothingDue(q[1..], t);
        }
      }
    }
  }

  lemma {:induction false} NothingDue(q: seq<TimedEvent>, t: nat)
    requires forall i :: 0 <= i < |q| ==> q[i].time > t
    ensures DueBy(q, t) == []
  {
    if q != [] {
      NothingDue(q[1..], t);
    }
  }

  /** A second `dequeue(t)` right after the first pops nothing. */
  lemma {:induction false} DequeueTwiceIsEmpty(q: seq<TimedEvent>, t: nat)
    ensures Dequeue(Dequeue(q, t).1, t).0 == []
  {
    DequeueBounds(q, t);
  }

  /** Dequeuing at `t` and then at a later `u` pops what one dequeue at `u` pops. */
  lemma {:induction false} DequeueThenLater(q: seq<TimedEvent>, t: nat, u: nat)
    requires t <= u
    ensures Dequeue(q, t).0 + Dequeue(Dequeue(q, t).1, u).0 == Dequeue(q, u).0
    ensures Dequeue(Dequeue(q, t).1, u).1 == Dequeue(q, u).1
  {
    if q != [] && q[0].time <= t {
      var rest := Dequeue(q[1..], t);
      DequeueThenLater(q[1..], t, u);
      assert [q[0]] + rest.0 + Dequeue(rest.1, u).0 == [q[0]] + (rest.0 + Dequeue(rest.1, u).0);
    }
  }
}
