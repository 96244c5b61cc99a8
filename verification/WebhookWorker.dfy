/** The worker's own counters when a scheduling pass is split at each of its awaits and finishing jobs interleave. */
module WebhookWorker {
  import opened Options
  import opened WebhookConstants
  import opened WebhookQueueState

  datatype Candidate = Candidate(id: DeliveryId, sessionId: SessionId)

  /** Where the pass under way waits; `Off` is `ticking == false`. */
  datatype Scan =
    | Off
    | Listing(capacity: int)
    | Scanning(capacity: int, todo: seq<DeliveryId>, found: seq<Candidate>)
    | Reading(capacity: int, todo: seq<DeliveryId>, found: seq<Candidate>, id: DeliveryId)
    | Ranking(capacity: int, todo: seq<DeliveryId>, found: seq<Candidate>, job: Candidate)

  /** `flights` gives the session of each job whose `process` has not ended. */
  datatype Worker = Worker(
    active: int, processing: set<DeliveryId>, inflightSessions: set<SessionId>, flights: map<DeliveryId, SessionId>,
      scan: Scan)

  datatype Event =
    | Enter
    | Listed(due: seq<DeliveryId>)
    | TakeNext
    | Read(sessionId: Option<SessionId>)
    | Ranked(isHead: bool)
    | DispatchAll(order: seq<Candidate>)
    | Throw
    | Finish(id: DeliveryId)

  function Started(w: Worker, job: Candidate): Worker {
    w.(active := w.active + 1, processing := w.processing + {job.id},
       inflightSessions := if job.sessionId == NO_SESSION then w.inflightSessions
         else w.inflightSessions + {job.sessionId},
       flights := w.flights[job.id := job.sessionId])
  }

  /** The dispatch loop runs without an await: it stops at the capacity and skips sessions already in flight. */
  function StartAll(w: Worker, order: seq<Candidate>, room: int): Worker
    decreases |order|
  {
    if order == [] || room <= 0 then w
    else if order[0].sessionId != NO_SESSION && order[0].sessionId in w.inflightSessions
      then StartAll(w, order[1..], room)
    else StartAll(Started(w, order[0]), order[1..], room - 1)
  }

  function Ended(w: Worker, id: DeliveryId): Worker
    requires id in w.flights
  {
    w.(active := Max(0, w.active - 1), processing := w.processing - {id},
       inflightSessions := if w.flights[id] == NO_SESSION then w.inflightSessions
         else w.inflightSessions - {w.flights[id]},
       flights := w.flights - {id})
  }

  predicate DistinctCandidates(found: seq<Candidate>) {
    forall i, j :: 0 <= i < j < |found| ==> found[i].id != found[j].id
  }

  /** What the pass does when its awaited answer arrives. */
  function AfterRead(w: Worker, capacity: int, todo: seq<DeliveryId>, found: seq<Candidate>, id: DeliveryId,
        sid: Option<SessionId>): Scan {
    match sid
    case None => Scanning(capacity, todo, found)
    case Some(s) =>
      if s == NO_SESSION then Scanning(capacity, todo, found + [Candidate(id, NO_SESSION)])
      else if s in w.inflightSessions then Scanning(capacity, todo, found)
      else Ranking(capacity, todo, found, Candidate(id, s))
  }

  ghost predicate Next(maxConcurrency: int, w: Worker, e: Event, w': Worker) {
    match (e, w.scan)
    case (Enter, Off) =>
      w' == if maxConcurrency - w.active <= 0 then w else w.(scan := Listing(maxConcurrency - w.active))
    case (Listed(due), Listing(capacity)) =>
      Distinct(due) && w' == w.(scan := if due == [] then Off else Scanning(capacity, due, []))
    case (TakeNext, Scanning(capacity, todo, found)) =>
      && todo != []
      && w' == w.(scan := if todo[0] in w.processing then Scanning(capacity, todo[1..], found)
                          else Reading(capacity, todo[1..], found, todo[0]))
    case (Read(sid), Reading(capacity, todo, found, id)) =>
      w' == w.(scan := AfterRead(w, capacity, todo, found, id, sid))
    case (Ranked(isHead), Ranking(capacity, todo, found, job)) =>
      w' == w.(scan := Scanning(capacity, todo, if isHead then found + [job] else found))
    case (DispatchAll(order), Scanning(capacity, todo, found)) =>
      todo == [] && multiset(order) == multiset(found) && w' == StartAll(w.(scan := Off), order, capacity)
    case (Throw, _) => !w.scan.Off? && w' == w.(scan := Off)
    case (Finish(id), _) => id in w.flights && w' == Ended(w, id)
    case _ => false
  }

  // ---------------------------------------------------------------- the invariant

  ghost predicate Exact(w: Worker) {
    && w.processing == w.flights.Keys
    && w.active == |w.processing|
    && (forall id :: id in w.flights && w.flights[id] != NO_SESSION ==> w.flights[id] in w.inflightSessions)
    && (forall sid :: sid in w.inflightSessions ==>
         sid != NO_SESSION && exists id :: id in w.flights && w.flights[id] == sid)
    && (forall a, b :: a in w.flights && b in w.flights && a != b && w.flights[a] == w.flights[b] ==>
         w.flights[a] == NO_SESSION)
  }

  /** No candidate is being processed, whatever finished since it was found. */
  ghost predicate Fresh(w: Worker, found: seq<Candidate>) {
    DistinctCandidates(found) && forall i :: 0 <= i < |found| ==> found[i].id !in w.processing
  }

  ghost predicate Apart(todo: seq<DeliveryId>, found: seq<Candidate>) {
    Distinct(todo) && forall i, j :: 0 <= i < |todo| && 0 <= j < |found| ==> todo[i] != found[j].id
  }

  ghost predicate Pending(w: Worker, todo: seq<DeliveryId>, found: seq<Candidate>, id: DeliveryId) {
    id !in w.processing && id !in todo && forall i :: 0 <= i < |found| ==> found[i].id != id
  }

  ghost predicate WithinCapacity(maxConcurrency: int, w: Worker) {
    && w.active <= Max(0, maxConcurrency)
    && (w.scan.Off? || (w.scan.capacity >= 1 && w.active + w.scan.capacity <= maxConcurrency))
  }

  ghost predicate Inv(maxConcurrency: int, w: Worker) {
    && Exact(w) && WithinCapacity(maxConcurrency, w)
    && (w.scan.Scanning? || w.scan.Reading? || w.scan.Ranking? ==>
         Fresh(w, w.scan.found) && Apart(w.scan.todo, w.scan.found))
    && (w.scan.Reading? ==> Pending(w, w.scan.todo, w.scan.found, w.scan.id))
    && (w.scan.Ranking? ==> Pending(w, w.scan.todo, w.scan.found, w.scan.job.id))
  }

  lemma StartKeepsExact(w: Worker, job: Candidate)
    requires Exact(w) && job.id !in w.processing
    requires job.sessionId == NO_SESSION || job.sessionId !in w.inflightSessions
    ensures Exact(Started(w, job)) && Started(w, job).active == w.active + 1
  {
    var w' := Started(w, job);
    forall sid | sid in w'.inflightSessions
      ensures sid != NO_SESSION && exists id :: id in w'.flights && w'.flights[id] == sid
    {
      if sid in w.inflightSessions {
        var id :| id in w.flights && w.flights[id] == sid;
        assert id in w'.flights && w'.flights[id] == sid;
      } else {
        assert w'.flights[job.id] == sid;
      }
    }
  }

  lemma StillFresh(w: Worker, order: seq<Candidate>)
    requires Fresh(w, order) && order != []
    ensures Fresh(w, order[1..]) && Fresh(Started(w, order[0]), order[1..])
  {
  }

  lemma {:induction false} StartAllKeepsExact(w: Worker, order: seq<Candidate>, room: int)
    requires Exact(w) && Fresh(w, order) && room >= 0
    ensures var w' := StartAll(w, order, room);
      Exact(w') && w'.scan == w.scan && w.active <= w'.active <= w.active + room
    decreases |order|
  {
    hide Exact;
    if order != [] && room > 0 {
      StillFresh(w, order);
      if order[0].sessionId != NO_SESSION && order[0].sessionId in w.inflightSessions {
        StartAllKeepsExact(w, order[1..], room);
      } else {
        StartKeepsExact(w, order[0]);
        hide Fresh;
        StartAllKeepsExact(Started(w, order[0]), order[1..], room - 1);
      }
    }
  }

  lemma EndKeepsExact(w: Worker, id: DeliveryId)
    requires Exact(w) && id in w.flights
    ensures Exact(Ended(w, id)) && Ended(w, id).active == w.active - 1
  {
    var w' := Ended(w, id);
    assert w.processing == w'.processing + {id};
    forall sid | sid in w'.inflightSessions
      ensures sid != NO_SESSION && exists x :: x in w'.flights && w'.flights[x] == sid
    {
      var x :| x in w.flights && w.flights[x] == sid;
      assert x in w'.flights && w'.flights[x] == sid;
    }
  }

  lemma SortKeepsFresh(w: Worker, found: seq<Candidate>, order: seq<Candidate>)
    requires Fresh(w, found) && multiset(order) == multiset(found)
    ensures Fresh(w, order)
  {
    forall i | 0 <= i < |order| ensures order[i].id !in w.processing {
      assert order[i] in multiset(found);
    }
    forall i, j | 0 <= i < j < |order| ensures order[i].id != order[j].id {
      if order[i].id == order[j].id {
        assert order[i] in multiset(found) && order[j] in multiset(found);
        assert order[i] == order[j];
        assert order == order[..i] + [order[i]] + order[i + 1..j] + [order[j]] + order[j + 1..];
        assert multiset(order)[order[i]] >= 2;
        OnceFound(found, order[i]);
      }
    }
  }

  lemma OnceFound(found: seq<Candidate>, c: Candidate)
    requires DistinctCandidates(found) && c in found
    ensures multiset(found)[c] == 1
  {
    var k :| 0 <= k < |found| && found[k] == c;
    assert found == found[..k] + [c] + found[k + 1..];
    assert c !in found[..k] && c !in found[k + 1..];
  }

  lemma ScanKeepsExact(w: Worker, scan: Scan)
    requires Exact(w)
    ensures Exact(w.(scan := scan))
  {
  }

  lemma ListingKeepsInv(maxConcurrency: int, w: Worker, e: Event, w': Worker)
    requires Inv(maxConcurrency, w) && Next(maxConcurrency, w, e, w') && (e.Enter? || e.Listed? || e.Throw?)
    ensures Inv(maxConcurrency, w')
  {
    ScanKeepsExact(w, w'.scan);
    hide Exact;
  }

  lemma CollectingKeepsInv(maxConcurrency: int, w: Worker, e: Event, w': Worker)
    requires Inv(maxConcurrency, w) && Next(maxConcurrency, w, e, w') && (e.TakeNext? || e.Read? || e.Ranked?)
    ensures Inv(maxConcurrency, w')
  {
    ScanKeepsExact(w, w'.scan);
    hide Exact;
  }

  lemma DispatchKeepsInv(maxConcurrency: int, w: Worker, order: seq<Candidate>, w': Worker)
    requires Inv(maxConcurrency, w) && Next(maxConcurrency, w, DispatchAll(order), w')
    ensures Inv(maxConcurrency, w')
  {
    hide Exact, DistinctCandidates, StartAll;
    SortKeepsFresh(w, w.scan.found, order);
    ScanKeepsExact(w, Off);
    StartAllKeepsExact(w.(scan := Off), order, w.scan.capacity);
  }

  lemma FinishKeepsInv(maxConcurrency: int, w: Worker, id: DeliveryId, w': Worker)
    requires Inv(maxConcurrency, w) && Next(maxConcurrency, w, Finish(id), w')
    ensures Inv(maxConcurrency, w')
  {
    EndKeepsExact(w, id);
    hide Exact;
  }

  lemma StepKeepsInv(maxConcurrency: int, w: Worker, e: Event, w': Worker)
    requires Inv(maxConcurrency, w) && Next(maxConcurrency, w, e, w')
    ensures Inv(maxConcurrency, w')
  {
    hide Inv, Next;
    match e
    case DispatchAll(order) => DispatchKeepsInv(maxConcurrency, w, order, w');
    case Finish(id) => FinishKeepsInv(maxConcurrency, w, id, w');
    case Enter => ListingKeepsInv(maxConcurrency, w, e, w');
    case Listed(due) => ListingKeepsInv(maxConcurrency, w, e, w');
    case Throw => ListingKeepsInv(maxConcurrency, w, e, w');
    case TakeNext => CollectingKeepsInv(maxConcurrency, w, e, w');
    case Read(sid) => CollectingKeepsInv(maxConcurrency, w, e, w');
    case Ranked(isHead) => CollectingKeepsInv(maxConcurrency, w, e, w');
  }

  ghost predicate IsRun(maxConcurrency: int, ws: seq<Worker>, es: seq<Event>) {
    && |ws| == |es| + 1
    && ws[0] == Worker(0, {}, {}, map[], Off)
    && forall i :: 0 <= i < |es| ==> Next(maxConcurrency, ws[i], es[i], ws[i + 1])
  }

  lemma {:induction false} RunKeepsInv(maxConcurrency: int, ws: seq<Worker>, es: seq<Event>)
    requires IsRun(maxConcurrency, ws, es)
    ensures forall i :: 0 <= i < |ws| ==> Inv(maxConcurrency, ws[i])
  {
    if es != [] {
      hide Next, Inv;
      var n := |es| - 1;
      RunKeepsInv(maxConcurrency, ws[..n + 1], es[..n]);
      assert Inv(maxConcurrency, ws[..n + 1][n]);
      StepKeepsInv(maxConcurrency, ws[n], es[n], ws[n + 1]);
      assert forall i :: 0 <= i <= n ==> ws[i] == ws[..n + 1][i];
    }
  }

  /** However the awaits of passes and the ends of jobs interleave: the active count is the number of jobs in progress
      and within the limit, the in-flight sessions are exactly theirs, no session has two, and ending a job always
      lowers a positive count, so the clamp at zero never takes effect. */
  lemma WorkerBooksAreExact(maxConcurrency: int, ws: seq<Worker>, es: seq<Event>, i: nat)
    requires IsRun(maxConcurrency, ws, es) && i < |ws|
    ensures ws[i].active == |ws[i].processing| <= Max(0, maxConcurrency)
    ensures ws[i].processing == ws[i].flights.Keys
    ensures forall sid :: sid in ws[i].inflightSessions <==>
      sid != NO_SESSION && exists id :: id in ws[i].flights && ws[i].flights[id] == sid
    ensures forall a, b :: a in ws[i].flights && b in ws[i].flights && a != b && ws[i].flights[a] != NO_SESSION ==>
      ws[i].flights[a] != ws[i].flights[b]
    ensures forall id :: id in ws[i].flights ==> ws[i].active - 1 >= 0
  {
    RunKeepsInv(maxConcurrency, ws, es);
    assert Inv(maxConcurrency, ws[i]);
    forall id | id in ws[i].flights ensures ws[i].active >= 1 {
      EndKeepsExact(ws[i], id);
      assert |Ended(ws[i], id).processing| >= 0;
    }
  }
}
