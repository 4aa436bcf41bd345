/** The order in which due jobs are taken (ORDER BY available_at, id). */
module Queue {
  import opened Timestamps
  import opened Domain
  import opened Workflow
  import TextOrder

  predicate Sooner(a: Job, b: Job) { TextOrder.Less(FormatTime(a.availableAt), FormatTime(b.availableAt)) }

  /** `found` is the next due job among the first i. */
  ghost predicate Scanned(jobs: map<Id, Job>, ids: seq<Id>, i: nat, found: Option<Id>, now: Instant) {
    && i <= |ids| && (forall k | 0 <= k < |ids| :: ids[k] in jobs) && (forall j | j in jobs :: j in ids)
    && match found
       case None => forall k | 0 <= k < i :: !Due(jobs[ids[k]], now)
       case Some(f) =>
         && f in jobs && Due(jobs[f], now) && (exists k :: 0 <= k < i && ids[k] == f)
         && forall k | 0 <= k < i && Due(jobs[ids[k]], now) :: QueuedBefore(jobs, f, ids[k])
  }

  lemma QueueStep(jobs: map<Id, Job>, i: Id, found: Id)
    requires found in jobs && i in jobs && TextOrder.LessEq(found, i)
    ensures if Sooner(jobs[i], jobs[found]) then QueuedBefore(jobs, i, found) else QueuedBefore(jobs, found, i)
    ensures i == found ==> QueuedBefore(jobs, i, i)
  {
    hide FormatTime;
    TextOrder.Total(FormatTime(jobs[i].availableAt), FormatTime(jobs[found].availableAt));
  }

  lemma QueueTransitive(jobs: map<Id, Job>, i: Id, j: Id, k: Id)
    requires i in jobs && j in jobs && k in jobs && QueuedBefore(jobs, i, j) && QueuedBefore(jobs, j, k)
    ensures QueuedBefore(jobs, i, k)
  {
    var a, b, c := FormatTime(jobs[i].availableAt), FormatTime(jobs[j].availableAt), FormatTime(jobs[k].availableAt);
    hide FormatTime;
    TextOrder.Irreflexive(a);
    if TextOrder.Less(a, b) && TextOrder.Less(b, c) { TextOrder.Transitive(a, b, c); }
    if a == b && b == c && i != j && j != k { TextOrder.Transitive(i, j, k); }
  }

  lemma ScanStep(jobs: map<Id, Job>, ids: seq<Id>, i: nat, found: Option<Id>, now: Instant)
    requires i < |ids| && TextOrder.Ascending(ids) && Scanned(jobs, ids, i, found, now)
    ensures Scanned(jobs, ids, i + 1,
                    if Due(jobs[ids[i]], now) && (found == None || Sooner(jobs[ids[i]], jobs[found.value])) then Some(ids[i]) else found,
                    now)
  {
    hide Due, QueuedBefore, Sooner;
    QueueStep(jobs, ids[i], ids[i]);
    assert exists k :: 0 <= k < i + 1 && ids[k] == ids[i];
    if found.Some? && Due(jobs[ids[i]], now) {
      var f :| 0 <= f < i && ids[f] == found.value;
      QueueStep(jobs, ids[i], found.value);
      if Sooner(jobs[ids[i]], jobs[found.value]) {
        forall k | 0 <= k < i && Due(jobs[ids[k]], now) ensures QueuedBefore(jobs, ids[i], ids[k]) {
          QueueTransitive(jobs, ids[i], found.value, ids[k]);
        }
      }
    }
  }

  // --------------------------------------------------------- the oldest first

  predicate WholeSecond(t: Instant) { t % SECOND == 0 }

  /** Job `i` is rightly taken before job `j`: it has not become available a
      second or more after it; on whole seconds it has become available no later;
      and of two jobs of one time it has the smaller id. */
  predicate Ahead(i: Id, a: Job, j: Id, b: Job) {
    && (FourDigitYear(a.availableAt) && FourDigitYear(b.availableAt) ==>
          && a.availableAt < b.availableAt + SECOND
          && (WholeSecond(a.availableAt) && WholeSecond(b.availableAt) ==> a.availableAt <= b.availableAt))
    && (a.availableAt == b.availableAt ==> i == j || TextOrder.Less(i, j))
  }

  /** The next due job is ahead of every job whose time has come. */
  lemma OldestFirst(jobs: map<Id, Job>, id: Id, now: Instant, j: Id)
    requires NextDue(jobs, id, now)
    requires j in jobs && jobs[j].status == JobPending && TextLessEq(jobs[j].availableAt, now)
    ensures jobs[id].status == JobPending && TextLessEq(jobs[id].availableAt, now)
    ensures Ahead(id, jobs[id], j, jobs[j])
  {
    hide FormatTime, FourDigitYear;
    var a, b := jobs[id].availableAt, jobs[j].availableAt;
    assert Due(jobs[j], now) && QueuedBefore(jobs, id, j);
    TextOrder.Irreflexive(FormatTime(a));
    if FourDigitYear(a) && FourDigitYear(b) {
      TextTestErrsBelowOneSecond(a, b);
      if WholeSecond(a) && WholeSecond(b) { WholeSecondsCompareExactly(a, b); }
    }
  }

  lemma NextIsDue(jobs: map<Id, Job>, id: Id, now: Instant)
    requires NextDue(jobs, id, now)
    ensures id in jobs && jobs[id].status == JobPending && TextLessEq(jobs[id].availableAt, now)
  {}

  /** Job `id` is due, and ahead of every other due job. */
  ghost predicate Foremost(jobs: map<Id, Job>, id: Id, now: Instant) {
    && id in jobs && jobs[id].status == JobPending && TextLessEq(jobs[id].availableAt, now)
    && forall j | j in jobs && jobs[j].status == JobPending && TextLessEq(jobs[j].availableAt, now) :: Ahead(id, jobs[id], j, jobs[j])
  }

  lemma NextIsForemost(jobs: map<Id, Job>, id: Id, now: Instant)
    requires NextDue(jobs, id, now)
    ensures Foremost(jobs, id, now)
  {
    hide NextDue, Ahead, TextLessEq;
    NextIsDue(jobs, id, now);
    forall j | j in jobs && jobs[j].status == JobPending && TextLessEq(jobs[j].availableAt, now) ensures Ahead(id, jobs[id], j, jobs[j]) {
      OldestFirst(jobs, id, now, j);
    }
  }
}
