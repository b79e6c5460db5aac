/** The backend's query registry (`QueryQueue` in backend/app/query_queue.py): a map from
    query id to its record, and a first-in first-out list of ids waiting to be processed.
    `id` is the freshly generated query id and `now` the clock reading of each call. */
module QueryQueue {
  import opened Wrappers

  datatype Status = Queued | Processing | Completed | Failed

  /** The result dictionary of a finished query. */
  type ResultDict = map<string, string>

  datatype QueuedQuery = QueuedQuery(
    id: string,
    sessionId: string,
    query: string,
    context: seq<string>,
    status: Status,
    createdAt: int,
    result: Option<ResultDict>,
    error: Option<string>)

  datatype Queue = Queue(pending: seq<string>, queries: map<string, QueuedQuery>)

  const Empty: Queue := Queue([], map[])

  const SecondsPerHour: int := 3600
  /** The age limit `cleanup_old_queries` uses unless given another. */
  const DefaultMaxAgeHours: int := 24

  /** Python truthiness of an optional dictionary: present and non-empty. */
  predicate TruthyResult(r: Option<ResultDict>)
  {
    r.Some? && |r.value| > 0
  }

  /** Python truthiness of an optional string: present and non-empty. */
  predicate TruthyError(e: Option<string>)
  {
    e.Some? && |e.value| > 0
  }

  /** `add_query`: records a queued query and puts its id at the back of the line. */
  function AddQuery(q: Queue, id: string, sessionId: string, query: string, context: Option<seq<string>>, now: int): (r: Queue)
    requires id !in q.queries
    ensures id in r.queries
    ensures var rec := r.queries[id];
      && rec.id == id && rec.sessionId == sessionId && rec.query == query
      && rec.status == Queued && rec.createdAt == now
      && rec.result.None? && rec.error.None?
      && (context.None? ==> rec.context == [])
      && (context.Some? ==> rec.context == context.value)
    ensures forall k :: k in q.queries ==> k in r.queries && r.queries[k] == q.queries[k]
    ensures forall k :: k in r.queries ==> k == id || k in q.queries
    ensures r.pending == q.pending + [id]
  {
    var ctx := match context case None => [] case Some(c) => c;
    Queue(q.pending + [id], q.queries[id := QueuedQuery(id, sessionId, query, ctx, Queued, now, None, None)])
  }

  /** `get_query_status`. */
  function GetQueryStatus(q: Queue, id: string): (r: Option<QueuedQuery>)
    ensures r.Some? <==> id in q.queries
    ensures r.Some? ==> r.value == q.queries[id]
  {
    if id in q.queries then Some(q.queries[id]) else None
  }

  datatype Next = Next(id: Option<string>, queue: Queue)

  /** `get_next_query`: takes the oldest waiting id, or nothing when none is waiting. */
  function GetNextQuery(q: Queue): (r: Next)
    ensures |q.pending| == 0 ==> r == Next(None, q)
    ensures |q.pending| > 0 ==>
      r.id == Some(q.pending[0]) && r.queue.pending == q.pending[1..] && r.queue.queries == q.queries
  {
    if |q.pending| == 0 then Next(None, q) else Next(Some(q.pending[0]), q.(pending := q.pending[1..]))
  }

  /** The ids `n` successive `get_next_query` calls return. */
  function Drain(q: Queue, n: nat): (ids: seq<string>)
    decreases n
  {
    if n == 0 then []
    else
      var next := GetNextQuery(q);
      match next.id
      case None => []
      case Some(id) => [id] + Drain(next.queue, n - 1)
  }

  /** Ids come out in the order they went in: draining returns the waiting ids, oldest first. */
  lemma {:induction false} DrainIsFifo(q: Queue)
    ensures Drain(q, |q.pending|) == q.pending
    decreases |q.pending|
  {
    if |q.pending| > 0 {
      DrainIsFifo(GetNextQuery(q).queue);
    }
  }

  /** A query added now is served after every id already waiting. */
  lemma AddedQueryServedLast(q: Queue, id: string, sessionId: string, query: string, context: Option<seq<string>>, now: int)
    requires id !in q.queries
    ensures Drain(AddQuery(q, id, sessionId, query, context, now), |q.pending| + 1) == q.pending + [id]
  {
    DrainIsFifo(AddQuery(q, id, sessionId, query, context, now));
  }

  /** `update_query_status`: on a known id, sets the status, and the result and error only
      when the new ones are truthy; an unknown id is ignored. */
  function UpdateQueryStatus(q: Queue, id: string, status: Status, result: Option<ResultDict>, error: Option<string>): (r: Queue)
    ensures id !in q.queries ==> r == q
    ensures r.pending == q.pending && r.queries.Keys == q.queries.Keys
    ensures forall k :: k in q.queries && k != id ==> r.queries[k] == q.queries[k]
    ensures id in q.queries ==>
      var before := q.queries[id];
      var after := r.queries[id];
      && after.status == status
      && after.result == (if TruthyResult(result) then result else before.result)
      && after.error == (if TruthyError(error) then error else before.error)
      && after.(status := before.status, result := before.result, error := before.error) == before
  {
    if id !in q.queries then q
    else
      var rec := q.queries[id];
      var rec1 := rec.(status := status);
      var rec2 := if TruthyResult(result) then rec1.(result := result) else rec1;
      var rec3 := if TruthyError(error) then rec2.(error := error) else rec2;
      q.(queries := q.queries[id := rec3])
  }

  /** Repeating an update changes nothing further. */
  lemma UpdateIdempotent(q: Queue, id: string, status: Status, result: Option<ResultDict>, error: Option<string>)
    ensures var once := UpdateQueryStatus(q, id, status, result, error);
      UpdateQueryStatus(once, id, status, result, error) == once
  {
  }

  /** The creation time before which `cleanup_old_queries` removes a query. */
  function Cutoff(now: int, maxAgeHours: int): int
  {
    now - maxAgeHours * SecondsPerHour
  }

  /** `cleanup_old_queries`: forgets every query created strictly before the cutoff. The
      waiting line is left as it is. */
  function CleanupOldQueries(q: Queue, now: int, maxAgeHours: int := DefaultMaxAgeHours): (r: Queue)
    ensures forall k :: k in r.queries <==> k in q.queries && q.queries[k].createdAt >= now - maxAgeHours * 3600
    ensures forall k :: k in r.queries ==> r.queries[k] == q.queries[k]
    ensures r.pending == q.pending
  {
    var cutoff := Cutoff(now, maxAgeHours);
    q.(queries := map k | k in q.queries && !(q.queries[k].createdAt < cutoff) :: q.queries[k])
  }

  /** Called without an age limit, the cleanup keeps exactly the queries of the last day. */
  lemma DefaultCleanupKeepsOneDay(q: Queue, now: int)
    ensures forall k :: k in CleanupOldQueries(q, now).queries <==> k in q.queries && q.queries[k].createdAt >= now - 86400
  {
  }

  /** A later cleanup with the same age limit forgets at least what an earlier one did. */
  lemma CleanupMonotonic(q: Queue, now: int, later: int, maxAgeHours: int)
    requires now <= later
    ensures CleanupOldQueries(q, later, maxAgeHours).queries.Keys <= CleanupOldQueries(q, now, maxAgeHours).queries.Keys
  {
  }

  /** A cleanup forgets ids but not their place in line: a waiting id whose record was
      removed is still served, and then has no status. */
  lemma CleanupLeavesStaleIds(q: Queue, now: int, maxAgeHours: int)
    requires |q.pending| > 0
    requires q.pending[0] in q.queries && q.queries[q.pending[0]].createdAt < Cutoff(now, maxAgeHours)
    ensures var next := GetNextQuery(CleanupOldQueries(q, now, maxAgeHours));
      next.id == Some(q.pending[0]) && GetQueryStatus(next.queue, q.pending[0]).None?
  {
  }
}
