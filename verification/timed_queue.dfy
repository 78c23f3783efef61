/**
  The backing scheduler's doAt queue: a sequence kept in ascending time order,
  with ties broken by insertion order (the `insertionSequence` tie-break).
 */
module TimedQueue {
  import opened Events

  ghost predicate Sorted(q: seq<Event>) {
    forall i, j :: 0 <= i < j < |q| ==> q[i].time <= q[j].time
  }

  ghost predicate AllAtLeast(q: seq<Event>, t: Time) {
    forall i :: 0 <= i < |q| ==> t <= q[i].time
  }

  /** At most one pending release per source. */
  ghost predicate OneReleasePerSource(q: seq<Event>) {
    forall i, j :: 0 <= i < j < |q| && q[i].work.ReleasePause? && q[j].work.ReleasePause? ==> q[i].src != q[j].src
  }

  ghost predicate NoReleaseOf(q: seq<Event>, s: Source) {
    forall i :: 0 <= i < |q| && q[i].work.ReleasePause? ==> q[i].src != s
  }

  /**
    Where an event due at `t` goes: after every event due no later than `t`
    that is already queued, so that equal times keep submission order.
   */
  function InsertPos(q: seq<Event>, t: Time): (k: nat)
    ensures k <= |q|
    ensures forall i :: 0 <= i < k ==> q[i].time <= t
    ensures Sorted(q) ==> forall i :: k <= i < |q| ==> t < q[i].time
  {
    if q == [] || t < q[0].time then 0 else 1 + InsertPos(q[1..], t)
  }

  function Insert(q: seq<Event>, e: Event): (r: seq<Event>)
    ensures |r| == |q| + 1
    ensures Sorted(q) ==> Sorted(r)
    ensures forall t: Time :: AllAtLeast(q, t) && t <= e.time ==> AllAtLeast(r, t)
    ensures multiset(r) == multiset(q) + multiset{e}
    ensures forall x :: x in r <==> x in q || x == e
    ensures OneReleasePerSource(q) && (e.work.Action? || NoReleaseOf(q, e.src)) ==> OneReleasePerSource(r)
  {
    var k := InsertPos(q, e.time);
    InsertMultiset(q, e, k);
    InsertLowerBound(q, e, k);
    InsertSorted(q, e, k);
    InsertOneRelease(q, e, k);
    q[..k] + [e] + q[k..]
  }

  lemma InsertMultiset(q: seq<Event>, e: Event, k: nat)
    requires k <= |q|
    ensures multiset(q[..k] + [e] + q[k..]) == multiset(q) + multiset{e}
  {
    calc {
      multiset(q[..k] + [e] + q[k..]);
      multiset(q[..k]) + multiset{e} + multiset(q[k..]);
      { assert q == q[..k] + q[k..]; }
      multiset(q) + multiset{e};
    }
  }

  lemma InsertLowerBound(q: seq<Event>, e: Event, k: nat)
    requires k <= |q|
    ensures forall t: Time :: AllAtLeast(q, t) && t <= e.time ==> AllAtLeast(q[..k] + [e] + q[k..], t)
  {
    var r := q[..k] + [e] + q[k..];
    forall t: Time | AllAtLeast(q, t) && t <= e.time ensures AllAtLeast(r, t) {
      forall i | 0 <= i < |r| ensures t <= r[i].time {
        if i < k {
          assert r[i] == q[i];
        } else if k < i {
          assert r[i] == q[i - 1];
        }
      }
    }
  }

  lemma InsertOneRelease(q: seq<Event>, e: Event, k: nat)
    requires k == InsertPos(q, e.time)
    ensures OneReleasePerSource(q) && (e.work.Action? || NoReleaseOf(q, e.src)) ==>
              OneReleasePerSource(q[..k] + [e] + q[k..])
  {
    var r := q[..k] + [e] + q[k..];
    forall i, j | 0 <= i < j < |r| && r[i].work.ReleasePause? && r[j].work.ReleasePause?
        && OneReleasePerSource(q) && (e.work.Action? || NoReleaseOf(q, e.src))
      ensures r[i].src != r[j].src
    {
      if j < k {
        assert r[i] == q[i] && r[j] == q[j];
      } else if j == k {
        assert r[i] == q[i];
      } else if i == k {
        assert r[j] == q[j - 1];
      } else if i < k {
        assert r[i] == q[i] && r[j] == q[j - 1];
      } else {
        assert r[i] == q[i - 1] && r[j] == q[j - 1];
      }
    }
  }

  lemma InsertSorted(q: seq<Event>, e: Event, k: nat)
    requires k == InsertPos(q, e.time)
    ensures Sorted(q) ==> Sorted(q[..k] + [e] + q[k..])
  {
    var r := q[..k] + [e] + q[k..];
    forall i, j | 0 <= i < j < |r| && Sorted(q) ensures r[i].time <= r[j].time {
      if j < k {
        assert r[i] == q[i] && r[j] == q[j];
      } else if j == k {
        assert r[i] == q[i];
      } else if i == k {
        assert r[j] == q[j - 1];
      } else if i < k {
        assert r[i] == q[i] && r[j] == q[j - 1];
      } else {
        assert r[i] == q[i - 1] && r[j] == q[j - 1];
      }
    }
  }

  /**
    An event due no earlier than everything queued goes to the back, so
    events submitted for the same time run in submission order.
   */
  lemma InsertAtEnd(q: seq<Event>, e: Event)
    requires forall i :: 0 <= i < |q| ==> q[i].time <= e.time
    ensures Insert(q, e) == q + [e]
  {
    InsertPosAtEnd(q, e.time);
    assert q[..|q|] == q;
  }

  lemma {:induction false} InsertPosAtEnd(q: seq<Event>, t: Time)
    requires forall i :: 0 <= i < |q| ==> q[i].time <= t
    ensures InsertPos(q, t) == |q|
    decreases |q|
  {
    if q != [] {
      InsertPosAtEnd(q[1..], t);
    }
  }

  /** An event due strictly before the head of the queue becomes its new head. */
  lemma InsertAtFront(q: seq<Event>, e: Event)
    requires q != [] ==> e.time < q[0].time
    ensures Insert(q, e) == [e] + q
  {
    assert q[..0] == [];
  }

  /** Held-back doAts, moved to the release time in their original order. */
  function Retime(q: seq<Event>, t: Time): (r: seq<Event>)
    ensures |r| == |q|
    ensures forall i :: 0 <= i < |q| ==> r[i] == q[i].(time := t)
  {
    seq(|q|, i requires 0 <= i < |q| => q[i].(time := t))
  }

  /**
    Events all due at `t` placed in front of a queue whose events are due no
    earlier than `t` keep the queue sorted: the held-back doAts sort ahead of
    everything still waiting when the release runs, including events due at `t`.
   */
  lemma PrependRetimedSorted(held: seq<Event>, q: seq<Event>, t: Time)
    requires Sorted(q) && AllAtLeast(q, t)
    ensures Sorted(Retime(held, t) + q)
    ensures AllAtLeast(Retime(held, t) + q, t)
  {
    var r := Retime(held, t) + q;
    forall i, j | 0 <= i < j < |r| ensures r[i].time <= r[j].time {
      if j < |held| {
        assert r[i].time == t == r[j].time;
      } else if i >= |held| {
        assert r[i] == q[i - |held|] && r[j] == q[j - |held|];
      } else {
        assert r[j] == q[j - |held|];
      }
    }
  }
}
