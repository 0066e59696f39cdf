/**
 * The handler the launcher runs its stop and start actions on: at most `max` at a time (0: no limit), one per ID,
 * the others queued.
 */
module ActionHandler {
  import opened Sequences

  /** `number` tells submissions apart. */
  datatype Action = Action(id: string, number: nat)

  /** The queues, and the history of all submitted and all started actions. */
  datatype Queues = Queues(work: seq<Action>, wait: seq<Action>, submitted: seq<Action>, started: seq<Action>)

  predicate InWork(work: seq<Action>, id: string) {
    exists i :: 0 <= i < |work| && work[i].id == id
  }

  predicate Full(work: seq<Action>, max: nat) {
    max != 0 && |work| >= max
  }

  /** The first waiting action whose ID is not in work. */
  function FirstEligible(work: seq<Action>, wait: seq<Action>): (found: Option<nat>)
    ensures found.Some? ==> found.value < |wait| && !InWork(work, wait[found.value].id)
    ensures found.Some? ==> forall j :: 0 <= j < found.value ==> InWork(work, wait[j].id)
    ensures found.None? ==> forall j :: 0 <= j < |wait| ==> InWork(work, wait[j].id)
  {
    if wait == [] then None
    else if !InWork(work, wait[0].id) then Some(0)
    else match FirstEligible(work, wait[1..])
      case None => None
      case Some(i) => Some(i + 1)
  }

  function Submit(q: Queues, max: nat, a: Action): Queues {
    if InWork(q.work, a.id) || Full(q.work, max) then
      q.(wait := q.wait + [a], submitted := q.submitted + [a])
    else
      q.(work := q.work + [a], submitted := q.submitted + [a], started := q.started + [a])
  }

  /** The i-th action in work ends; one waiting action may take its place. */
  function Finish(q: Queues, i: nat): Queues
    requires i < |q.work|
  {
    var work := RemoveAt(q.work, i);
    match FirstEligible(work, q.wait)
    case None => q.(work := work)
    case Some(k) => q.(work := work + [q.wait[k]], wait := RemoveAt(q.wait, k), started := q.started + [q.wait[k]])
  }

  class Handler {
    const max: nat
    var workQueue: seq<Action>
    var waitQueue: seq<Action>
    ghost var submitted: seq<Action>
    ghost var started: seq<Action>

    ghost function State(): Queues
      reads this
    {
      Queues(workQueue, waitQueue, submitted, started)
    }

    constructor (max: nat)
      ensures this.max == max && State() == Queues([], [], [], [])
    {
      this.max := max;
      workQueue, waitQueue, submitted, started := [], [], [], [];
    }

    method IsIDInWorkQueue(id: string) returns (found: bool)
      ensures found <==> InWork(workQueue, id)
    {
      for i := 0 to |workQueue|
        invariant forall j :: 0 <= j < i ==> workQueue[j].id != id
      {
        if workQueue[i].id == id {
          return true;
        }
      }
      return false;
    }

    method Execute(a: Action)
      modifies this
      ensures State() == Submit(old(State()), max, a)
    {
      var busy := IsIDInWorkQueue(a.id);
      if busy || (|workQueue| >= max && max != 0) {
        waitQueue := waitQueue + [a];
      } else {
        workQueue, started := workQueue + [a], started + [a];
      }
      submitted := submitted + [a];
    }

    /** The end of processAction: the item leaves the work queue and the first eligible one is taken over. */
    method ProcessEnd(item: nat)
      requires item < |workQueue|
      modifies this
      ensures State() == Finish(old(State()), item)
    {
      workQueue := RemoveAt(workQueue, item);
      ghost var work := workQueue;
      for k := 0 to |waitQueue|
        invariant State() == old(State()).(work := work) && workQueue == work
        invariant forall j :: 0 <= j < k ==> InWork(work, waitQueue[j].id)
      {
        var busy := IsIDInWorkQueue(waitQueue[k].id);
        if busy {
          continue;
        }
        assert FirstEligible(work, waitQueue) == Some(k);
        var action := waitQueue[k];
        waitQueue := RemoveAt(waitQueue, k);
        workQueue, started := workQueue + [action], started + [action];
        return;
      }
    }
  }

  /* ---- What every run keeps ---- */

  datatype Event = Submitted(action: Action) | Finished(index: nat)

  ghost predicate Run(q: Queues, max: nat, events: seq<Event>, r: Queues)
    decreases |events|
  {
    if events == [] then q == r
    else match events[0]
      case Submitted(a) => Run(Submit(q, max, a), max, events[1..], r)
      case Finished(i) => i < |q.work| && Run(Finish(q, i), max, events[1..], r)
  }

  function HasId(id: string): Action -> bool {
    (a: Action) => a.id == id
  }

  /** The actions of one ID, in order. */
  function Of(id: string, actions: seq<Action>): seq<Action> {
    Filter(HasId(id), actions)
  }

  ghost predicate DistinctIds(work: seq<Action>) {
    forall i, j :: 0 <= i < j < |work| ==> work[i].id != work[j].id
  }

  /** One action per ID in work, and an action waits only for its ID or for a place. */
  ghost predicate QueueInv(q: Queues, max: nat) {
    && DistinctIds(q.work)
    && (max != 0 ==> |q.work| <= max)
    && (Full(q.work, max) || forall j :: 0 <= j < |q.wait| ==> InWork(q.work, q.wait[j].id))
  }

  /** Per ID, what was submitted is what started followed by what waits. */
  ghost predicate OrderInv(q: Queues) {
    forall id :: Of(id, q.submitted) == Of(id, q.started) + Of(id, q.wait)
  }

  ghost predicate LatestInv(q: Queues) {
    forall i :: 0 <= i < |q.work| ==> LatestStarted(q.work[i], q.started)
  }

  ghost predicate Inv(q: Queues, max: nat) {
    QueueInv(q, max) && OrderInv(q) && LatestInv(q)
  }

  /** No action of the same ID has started since. */
  ghost predicate LatestStarted(a: Action, started: seq<Action>) {
    Of(a.id, started) != [] && Of(a.id, started)[|Of(a.id, started)| - 1] == a
  }

  lemma LatestAppend(work: seq<Action>, started: seq<Action>, a: Action)
    requires forall i :: 0 <= i < |work| ==> LatestStarted(work[i], started) && work[i].id != a.id
    ensures forall i :: 0 <= i < |work| + 1 ==> LatestStarted((work + [a])[i], started + [a])
  {
    forall i | 0 <= i < |work| + 1
      ensures LatestStarted((work + [a])[i], started + [a])
    {
      OfAppend((work + [a])[i].id, started, a);
    }
  }

  lemma OfAppend(id: string, actions: seq<Action>, a: Action)
    ensures Of(id, actions + [a]) == Of(id, actions) + if a.id == id then [a] else []
  {
    assert (actions + [a])[..|actions|] == actions;
  }

  /** Taking out the first action of its ID. */
  lemma OfRemoveFirst(id: string, actions: seq<Action>, k: nat)
    requires k < |actions|
    requires forall j :: 0 <= j < k ==> actions[j].id != actions[k].id
    ensures Of(id, actions) == (if actions[k].id == id then [actions[k]] else []) + Of(id, RemoveAt(actions, k))
  {
    FilterAround(HasId(id), actions, k);
    if actions[k].id == id {
      FilterNone(HasId(id), actions[..k]);
    }
    hide Filter, RemoveAt;
  }

  /** An ID that waits is in work or the queue is full, so nothing of this ID is overtaken. */
  lemma NothingOvertaken(q: Queues, max: nat, a: Action)
    requires QueueInv(q, max) && !InWork(q.work, a.id) && !Full(q.work, max)
    ensures Of(a.id, q.wait) == []
  {
    forall b | b in q.wait
      ensures !HasId(a.id)(b)
    {
      var j :| 0 <= j < |q.wait| && q.wait[j] == b;
    }
    FilterNone(HasId(a.id), q.wait);
  }

  lemma SubmitKeepsOrder(q: Queues, max: nat, a: Action)
    requires QueueInv(q, max) && OrderInv(q)
    ensures OrderInv(Submit(q, max, a))
  {
    var r := Submit(q, max, a);
    if !InWork(q.work, a.id) && !Full(q.work, max) {
      NothingOvertaken(q, max, a);
    }
    assert r.submitted == q.submitted + [a];
    assert || (r.wait == q.wait + [a] && r.started == q.started)
           || (r.wait == q.wait && r.started == q.started + [a] && Of(a.id, q.wait) == []);
    hide QueueInv, InWork, Full, Of, Submit;
    forall id
      ensures Of(id, r.submitted) == Of(id, r.started) + Of(id, r.wait)
    {
      AppendedOrder(id, q, r, a);
    }
  }

  lemma AppendedOrder(id: string, q: Queues, r: Queues, a: Action)
    requires Of(id, q.submitted) == Of(id, q.started) + Of(id, q.wait) && r.submitted == q.submitted + [a]
    requires || (r.wait == q.wait + [a] && r.started == q.started)
             || (r.wait == q.wait && r.started == q.started + [a] && Of(a.id, q.wait) == [])
    ensures Of(id, r.submitted) == Of(id, r.started) + Of(id, r.wait)
  {
    OfAppend(id, q.submitted, a);
    OfAppend(id, q.started, a);
    OfAppend(id, q.wait, a);
    hide Of;
  }

  lemma SubmitKeepsQueue(q: Queues, max: nat, a: Action)
    requires QueueInv(q, max)
    ensures QueueInv(Submit(q, max, a), max)
  {
    var r := Submit(q, max, a);
    if r.work != q.work {
      forall j | 0 <= j < |q.wait|
        ensures InWork(r.work, q.wait[j].id)
      {
        var i :| 0 <= i < |q.work| && q.work[i].id == q.wait[j].id;
        assert r.work[i].id == q.wait[j].id;
      }
    }
  }

  lemma SubmitKeeps(q: Queues, max: nat, a: Action)
    requires Inv(q, max)
    ensures Inv(Submit(q, max, a), max)
  {
    hide QueueInv, OrderInv, LatestStarted;
    SubmitKeepsQueue(q, max, a);
    SubmitKeepsOrder(q, max, a);
    if !InWork(q.work, a.id) && !Full(q.work, max) {
      LatestAppend(q.work, q.started, a);
    }
  }

  lemma RemoveKeepsIds(work: seq<Action>, i: nat)
    requires i < |work| && DistinctIds(work)
    ensures DistinctIds(RemoveAt(work, i))
    ensures forall id :: InWork(work, id) && id != work[i].id ==> InWork(RemoveAt(work, i), id)
  {
    forall id | InWork(work, id) && id != work[i].id
      ensures InWork(RemoveAt(work, i), id)
    {
      var k :| 0 <= k < |work| && work[k].id == id;
      assert RemoveAt(work, i)[if k < i then k else k - 1].id == id;
    }
  }

  lemma FinishKeepsOrder(q: Queues, i: nat)
    requires OrderInv(q) && i < |q.work|
    ensures OrderInv(Finish(q, i))
  {
    var r := Finish(q, i);
    var found := FirstEligible(RemoveAt(q.work, i), q.wait);
    if found.Some? {
      forall id
        ensures Of(id, r.submitted) == Of(id, r.started) + Of(id, r.wait)
      {
        OfAppend(id, q.started, q.wait[found.value]);
        OfRemoveFirst(id, q.wait, found.value);
      }
    }
  }

  lemma FinishKeepsQueue(q: Queues, max: nat, i: nat)
    requires QueueInv(q, max) && i < |q.work|
    ensures QueueInv(Finish(q, i), max)
  {
    RemoveKeepsIds(q.work, i);
    var found := FirstEligible(RemoveAt(q.work, i), q.wait);
    if found.Some? && !Full(Finish(q, i).work, max) {
      StillInWork(q, i, found.value);
    }
  }

  lemma FinishKeeps(q: Queues, max: nat, i: nat)
    requires Inv(q, max) && i < |q.work|
    ensures Inv(Finish(q, i), max)
  {
    hide QueueInv, OrderInv, LatestStarted;
    FinishKeepsQueue(q, max, i);
    FinishKeepsOrder(q, i);
    var work := RemoveAt(q.work, i);
    assert forall j :: 0 <= j < |work| ==> LatestStarted(work[j], q.started);
    var found := FirstEligible(work, q.wait);
    if found.Some? {
      forall j | 0 <= j < |work|
        ensures work[j].id != q.wait[found.value].id
      {
      }
      LatestAppend(work, q.started, q.wait[found.value]);
    }
  }

  /** If the queue was not full, all that waits still has its ID in work. */
  lemma StillInWork(q: Queues, i: nat, k: nat)
    requires i < |q.work| && DistinctIds(q.work)
    requires forall j :: 0 <= j < |q.wait| ==> InWork(q.work, q.wait[j].id)
    requires FirstEligible(RemoveAt(q.work, i), q.wait) == Some(k)
    ensures var r := Finish(q, i);
            forall j :: 0 <= j < |r.wait| ==> InWork(r.work, r.wait[j].id)
  {
    var r, work := Finish(q, i), RemoveAt(q.work, i);
    RemoveKeepsIds(q.work, i);
    assert q.wait[k].id == q.work[i].id;
    assert r.work[|work|].id == q.wait[k].id;
    forall j | 0 <= j < |r.wait|
      ensures InWork(r.work, r.wait[j].id)
    {
      var id := r.wait[j].id;
      assert id == q.wait[if j < k then j else j + 1].id;
      if id != q.work[i].id {
        var l :| 0 <= l < |work| && work[l].id == id;
        assert r.work[l].id == id;
      }
    }
  }

  lemma {:induction false} RunKeeps(q: Queues, max: nat, events: seq<Event>, r: Queues)
    requires Inv(q, max) && Run(q, max, events, r)
    ensures Inv(r, max)
    decreases |events|
  {
    hide Inv;
    if events != [] {
      match events[0] {
        case Submitted(a) =>
          SubmitKeeps(q, max, a);
          RunKeeps(Submit(q, max, a), max, events[1..], r);
        case Finished(i) =>
          FinishKeeps(q, max, i);
          RunKeeps(Finish(q, i), max, events[1..], r);
      }
    }
  }

  /**
   * What the launcher relies on: over any run the actions of one ID start in the order of their submission and
   * never overlap (the one in work, if any, is the latest started), the limit holds, nothing waits once no action is
   * in work, and while a place is free nothing waits but for its own ID.
   */
  lemma SameIdInOrder(max: nat, events: seq<Event>, r: Queues, id: string)
    requires Run(Queues([], [], [], []), max, events, r)
    ensures Of(id, r.submitted) == Of(id, r.started) + Of(id, r.wait)
    ensures |Of(id, r.work)| <= 1
    ensures forall a :: a in r.work ==> LatestStarted(a, r.started)
    ensures max != 0 ==> |r.work| <= max
    ensures r.work == [] ==> r.wait == []
    ensures max == 0 || |r.work| < max ==> forall a :: a in r.wait ==> exists b :: b in r.work && b.id == a.id
  {
    RunKeeps(Queues([], [], [], []), max, events, r);
    AtMostOne(id, r.work);
    if max == 0 || |r.work| < max {
      WaitsForItsID(r, max);
    }
  }

  /** While a place is free, an action waits only behind one of its own ID. */
  lemma WaitsForItsID(r: Queues, max: nat)
    requires QueueInv(r, max) && (max == 0 || |r.work| < max)
    ensures forall a :: a in r.wait ==> exists b :: b in r.work && b.id == a.id
  {
    forall a | a in r.wait
      ensures exists b :: b in r.work && b.id == a.id
    {
      var j :| 0 <= j < |r.wait| && r.wait[j] == a;
      var i :| 0 <= i < |r.work| && r.work[i].id == a.id;
      assert r.work[i] in r.work;
    }
  }

  lemma {:induction false} AtMostOne(id: string, work: seq<Action>)
    requires DistinctIds(work)
    ensures |Of(id, work)| <= 1
  {
    if work != [] {
      var n := |work| - 1;
      AtMostOne(id, work[..n]);
      if work[n].id == id {
        FilterNone(HasId(id), work[..n]);
      }
    }
  }
}
