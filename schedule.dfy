/** The job queue both workers keep, as a bag of (due time, job) entries.
    Times are integer milliseconds. The queue's own ordering and tie-break are
    not modelled: any entry with the smallest due time may come out first. */
module Schedule {

  datatype Scheduled<J> = Scheduled(due: int, job: J)

  /** `Schedule::instant(job)`: due at the moment it is pushed. */
  function Instant<J>(now: int, job: J): (e: Scheduled<J>)
    ensures e.due == now && e.job == job
  {
    Scheduled(now, job)
  }

  /** e is at the head of q: no entry of q is due before it. */
  predicate IsHead<J(==)>(q: multiset<Scheduled<J>>, e: Scheduled<J>)
  {
    e in q && forall x | x in q :: e.due <= x.due
  }

  /** `is_first_urgent`: the queue is not empty and its head, whichever entry
      of smallest due time that is, is due no later than now. */
  predicate IsFirstUrgent<J(==)>(q: multiset<Scheduled<J>>, now: int): (b: bool)
    ensures b <==> q != multiset{} && forall e | e in q && IsHead(q, e) :: e.due <= now
  {
    if q == multiset{} then false
    else
      HeadExists(q);
      exists e | e in q :: e.due <= now
  }

  /** q1 is q0 with one of its heads taken out, that head was due at now,
      and it carried job. */
  ghost predicate PoppedDueHead<J>(q0: multiset<Scheduled<J>>, q1: multiset<Scheduled<J>>, job: J, now: int)
  {
    exists e | e in q0 :: IsHead(q0, e) && e.due <= now && e.job == job && q1 == q0 - multiset{e}
  }

  /** Every non-empty queue has a head. */
  lemma {:induction false} HeadExists<J>(q: multiset<Scheduled<J>>)
    requires q != multiset{}
    ensures exists e :: IsHead(q, e)
    decreases |q|
  {
    var x :| x in q;
    var rest := q - multiset{x};
    forall y | y in q && y != x
      ensures y in rest
    {
      assert rest[y] == q[y];
    }
    if rest == multiset{} {
      assert IsHead(q, x);
    } else {
      HeadExists(rest);
      var h :| IsHead(rest, h);
      if h.due <= x.due {
        assert IsHead(q, h);
      } else {
        assert IsHead(q, x);
      }
    }
  }

  /** The queue is urgent exactly when a head is due: due-ness of the head
      decides it, whichever head the tie-break picks. */
  lemma UrgentIffHeadDue<J>(q: multiset<Scheduled<J>>, e: Scheduled<J>, now: int)
    requires IsHead(q, e)
    ensures IsFirstUrgent(q, now) <==> e.due <= now
  {
  }

  /** An entry pushed as instant makes the queue urgent at that moment. */
  lemma InstantIsUrgent<J>(q: multiset<Scheduled<J>>, job: J, now: int)
    ensures IsFirstUrgent(q + multiset{Instant(now, job)}, now)
  {
    assert Instant(now, job) in q + multiset{Instant(now, job)};
  }
}
