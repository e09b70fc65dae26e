/** Supersede order: which set may publish, and which set a Keep may confirm. */
module Supersede {
  import opened Types
  import opened Sections
  import opened Protocol

  predicate StrictlyIncreasing(q: seq<nat>) {
    forall i, j :: 0 <= i < j < |q| ==> q[i] < q[j]
  }

  predicate SetsOrdered(s: State) {
    forall q :: q in s.sets ==> 0 < q <= s.sh.setSeq && (Unfinished(s.sets[q]) ==> q !in s.hist.published)
  }

  predicate PublishedOrdered(s: State) {
    && StrictlyIncreasing(s.hist.published)
    && (forall q :: q in s.hist.published ==> q <= s.sh.setSeq)
  }

  predicate GatesPublished(s: State) {
    && (s.sh.keep.Some? ==> s.sh.keep.value.setSeq in s.hist.published)
    && (forall id :: id in s.keeps ==> s.keeps[id].mySeq in s.hist.published)
  }

  predicate Ordered(s: State) {
    SetsOrdered(s) && PublishedOrdered(s) && GatesPublished(s)
  }

  /** Nothing starts, publishes or validates: numbers, entry and reconciles stay, or only go. */
  predicate Quiet(s: State, s': State) {
    && s'.sh.setSeq == s.sh.setSeq
    && s'.hist.published == s.hist.published
    && (s'.sh.keep.Some? ==> s'.sh.keep == s.sh.keep)
    && (forall id :: id in s'.keeps ==> id in s.keeps && s'.keeps[id].mySeq == s.keeps[id].mySeq)
    && (forall q :: q in s'.sets ==> q in s.sets && (Unfinished(s'.sets[q]) ==> Unfinished(s.sets[q])))
  }

  predicate IsQuiet(step: Step) {
    !step.SetBegin? && !step.SetFinish? && !step.KeepBegin?
  }

  lemma QuietOperation(s: State, step: Step)
    requires Enabled(s, step)
    requires step.SetMove? || step.SetDisarm? || step.KeepWrite? || step.KeepFinish?
    ensures Quiet(s, Exec(s, step))
  {
    if step.SetMove? {
      MovesAreLocal(s, step.mySeq, step.move);
    }
  }

  lemma QuietStep(s: State, step: Step)
    requires Enabled(s, step) && IsQuiet(step)
    ensures Quiet(s, Exec(s, step))
  {
    if step.SetMove? || step.SetDisarm? || step.KeepWrite? || step.KeepFinish? {
      QuietOperation(s, step);
    }
  }

  lemma QuietKeepsOrder(s: State, s': State)
    requires Ordered(s) && Quiet(s, s')
    ensures Ordered(s')
  {
  }

  lemma BeginKeepsOrder(s: State, target: Option<ExitNodeRef>, prev: Option<ExitNodeRef>)
    requires Ordered(s)
    ensures Ordered(DoSetBegin(s, target, prev))
  {
  }

  lemma FinishKeepsOrder(s: State, mySeq: nat)
    requires Ordered(s) && mySeq in s.sets && s.sets[mySeq].phase.Observed?
    ensures Ordered(DoSetFinish(s, mySeq))
  {
    FinishShape(s, mySeq);
    if DoSetFinish(s, mySeq).hist.published != s.hist.published {
      forall i | 0 <= i < |s.hist.published| ensures s.hist.published[i] < mySeq {
        assert s.hist.published[i] in s.hist.published;
      }
    }
  }

  lemma ValidateKeepsOrder(s: State, id: nat)
    requires Ordered(s) && id !in s.keeps
    ensures Ordered(DoKeepBegin(s, id))
  {
    if CheckKeep(s.sh, s.clock).Proceed? {
      assert DoKeepBegin(s, id).sh == s.sh;
    }
  }

  lemma OrderedStep(s: State, step: Step)
    requires Ordered(s) && Enabled(s, step)
    ensures Ordered(Exec(s, step))
  {
    match step
    case SetBegin(target, prev) => BeginKeepsOrder(s, target, prev);
    case SetFinish(id) => FinishKeepsOrder(s, id);
    case KeepBegin(id) => ValidateKeepsOrder(s, id);
    case _ => QuietStep(s, step); QuietKeepsOrder(s, Exec(s, step));
  }

  lemma OrderedAlways(s: State)
    requires Reachable(s)
    ensures Ordered(s)
  {
    forall t, step | Ordered(t) && Enabled(t, step) ensures Ordered(Exec(t, step)) {
      OrderedStep(t, step);
    }
    InvarianceFromInit(Ordered, s);
  }

  lemma NextNumberIsFree(s: State)
    requires Ordered(s)
    ensures s.sh.setSeq + 1 !in s.sets
  {
  }

  lemma NumbersAreBehind(s: State)
    requires Ordered(s)
    ensures s.sh.keep.Some? ==> s.sh.keep.value.setSeq <= s.sh.setSeq
    ensures forall id :: id in s.keeps ==> s.keeps[id].mySeq <= s.sh.setSeq
  {
  }

  /** Per router, reconciles are published in strictly increasing sequence number; no pending
      entry is ahead of the counter; and when a Keep succeeds, the change it confirms is the
      newest set ever started and the last one ever published. */
  lemma SupersedeOrder(s: State)
    requires Reachable(s)
    ensures StrictlyIncreasing(s.hist.published)
    ensures s.sh.keep.Some? ==> s.sh.keep.value.setSeq <= s.sh.setSeq
    ensures forall id :: id in s.keeps && KeepSucceeds(s, id) ==>
              && (forall q :: q in s.sets ==> q <= s.keeps[id].mySeq && (Unfinished(s.sets[q]) ==> q < s.keeps[id].mySeq))
              && s.hist.published != []
              && s.hist.published[|s.hist.published| - 1] == s.keeps[id].mySeq
  {
    OrderedAlways(s);
    forall id | id in s.keeps && KeepSucceeds(s, id)
      ensures s.hist.published != [] && s.hist.published[|s.hist.published| - 1] == s.keeps[id].mySeq
    {
      assert s.keeps[id].mySeq in s.hist.published;
      var i :| 0 <= i < |s.hist.published| && s.hist.published[i] == s.keeps[id].mySeq;
      assert s.hist.published[|s.hist.published| - 1] in s.hist.published;
    }
  }

  /** A set that a newer one overtook never publishes, whatever happens next: once its
      number is behind the counter it stays behind, and only the newest number publishes. */
  lemma OvertakenSetNeverPublishes(s: State, mySeq: nat)
    requires Reachable(s) && Enabled(s, SetFinish(mySeq))
    ensures var s' := Exec(s, SetFinish(mySeq));
            if mySeq < s.sh.setSeq
            then s'.hist.published == s.hist.published && s'.sh.view == s.sh.view && s'.sh.keep == s.sh.keep
            else s.sh.view.Some? ==> s'.hist.published == s.hist.published + [mySeq]
  {
    OrderedAlways(s);
    FinishShape(s, mySeq);
  }
}
