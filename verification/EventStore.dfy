/**
 * The append-only in-memory event store: an indexed log with opaque cursors,
 * checkpoints that freeze a prefix, and filtered, paged queries.
 */
module EventStore {
  import opened Prelude
  import opened ProtocolEvents
  import opened EventTokens

  datatype StoredEvent = StoredEvent(cursor: Token, event: Event)
  datatype EventPage = EventPage(events: seq<StoredEvent>, nextCursor: Option<Token>)

  datatype StorageError = EventConflict(id: EventId) | InvalidQuery | InvalidCursor | InvalidCheckpoint

  const MAX_LIMIT := 1000

  /** The largest number of records a `Vec` can hold. */
  const MAX_RECORDS := 0x7FFF_FFFF_FFFF_FFFF

  datatype EventQuery = EventQuery(
    session: Option<SessionId>, actor: Option<ActorId>, eventTypes: set<string>,
    occurredFrom: Option<Timestamp>, occurredUntil: Option<Timestamp>,
    after: Option<Token>, upperBound: Option<Token>, limit: nat)

  /** `EventQuery::validate`. */
  function Validate(q: EventQuery): Option<StorageError> {
    if q.limit == 0 || q.limit > MAX_LIMIT then Some(InvalidQuery)
    else if exists t :: t in q.eventTypes && IsBlank(t) then Some(InvalidQuery)
    else if q.occurredFrom.Some? && q.occurredUntil.Some? && q.occurredFrom.value >= q.occurredUntil.value then
      Some(InvalidQuery)
    else if q.after.Some? && q.after.value.IsEmpty() then Some(InvalidCursor)
    else if q.upperBound.Some? && q.upperBound.value.IsEmpty() then Some(InvalidCheckpoint)
    else None
  }

  /** `EventQuery::matches`: every filter that is set must hold. */
  predicate Matches(q: EventQuery, e: Event) {
    && (q.session.Some? ==> q.session.value == e.session)
    && (q.actor.Some? ==> q.actor.value == e.actor)
    && (q.eventTypes == {} || EventType(e) in q.eventTypes)
    && (q.occurredFrom.Some? ==> e.occurredAt >= q.occurredFrom.value)
    && (q.occurredUntil.Some? ==> e.occurredAt < q.occurredUntil.value)
  }

  /** `EventCursor::memory_position`: 1-based, inside the log. */
  function CursorPosition(cursor: Token, store: EntityId, count: nat): Option<nat> {
    var position := DecodeMemoryToken(cursor, Cursor, store);
    if position.Some? && 0 < position.value <= count then position else None
  }

  /** `EventStoreCheckpoint::memory_position`: an exclusive bound, possibly zero. */
  function CheckpointPosition(checkpoint: Token, store: EntityId, count: nat): Option<nat> {
    var position := DecodeMemoryToken(checkpoint, Checkpoint, store);
    if position.Some? && position.value <= count then position else None
  }

  function Matching(q: EventQuery, records: seq<StoredEvent>): seq<StoredEvent> {
    if records == [] then [] else
    var before := Matching(q, records[..|records| - 1]);
    if Matches(q, records[|records| - 1].event) then before + [records[|records| - 1]] else before
  }

  function Take<T>(s: seq<T>, n: nat): seq<T> {
    if n < |s| then s[..n] else s
  }

  /** `MemoryEventStore::query` on a store holding these records. */
  function Query(store: EntityId, records: seq<StoredEvent>, q: EventQuery): Result<EventPage, StorageError> {
    var invalid := Validate(q);
    if invalid.Some? then Err(invalid.value) else
    var bound := if q.upperBound.Some? then CheckpointPosition(q.upperBound.value, store, |records|) else Some(|records|);
    if bound.None? then Err(InvalidCheckpoint) else
    var start := if q.after.Some? then CursorPosition(q.after.value, store, |records|) else Some(0);
    if start.None? then Err(InvalidCursor)
    else if start.value > bound.value then Err(InvalidCursor)
    else
      var found := Take(Matching(q, records[..bound.value][start.value..]), q.limit + 1);
      if |found| > q.limit
      then Ok(EventPage(found[..q.limit], Some(found[q.limit - 1].cursor)))
      else Ok(EventPage(found, None))
  }

  /** The log as a store can hold it: record i carries the cursor of position i + 1, and no id occurs twice. */
  ghost predicate WellFormedLog(store: EntityId, records: seq<StoredEvent>) {
    && |records| <= MAX_RECORDS
    && (forall i :: 0 <= i < |records| ==> records[i].cursor == MemoryToken(Cursor, store, i + 1))
    && (forall i, j :: 0 <= i < j < |records| ==> records[i].event.id != records[j].event.id)
  }

  /** Looking an id up by scanning the log. */
  function Scan(records: seq<StoredEvent>, id: EventId): Option<StoredEvent> {
    if records == [] then None
    else if records[0].event.id == id then Some(records[0])
    else Scan(records[1..], id)
  }

  lemma {:induction false} ScanFinds(records: seq<StoredEvent>, id: EventId, i: nat)
    requires i < |records| && records[i].event.id == id
    requires forall j :: 0 <= j < i ==> records[j].event.id != id
    ensures Scan(records, id) == Some(records[i])
    decreases i
  {
    if i > 0 {
      ScanFinds(records[1..], id, i - 1);
    }
  }

  lemma {:induction false} ScanMisses(records: seq<StoredEvent>, id: EventId)
    requires forall j :: 0 <= j < |records| ==> records[j].event.id != id
    ensures Scan(records, id) == None
    decreases |records|
  {
    if records != [] {
      ScanMisses(records[1..], id);
    }
  }

  class MemoryEventStore {
    const storeId: EntityId
    var records: seq<StoredEvent>
    var eventIndices: map<EventId, nat>

    /** The index holds exactly the positions of the log's ids. */
    static ghost predicate Indexed(store: EntityId, records: seq<StoredEvent>, index: map<EventId, nat>) {
      && WellFormedLog(store, records)
      && (forall i :: 0 <= i < |records| ==> records[i].event.id in index && index[records[i].event.id] == i)
      && (forall id :: id in index ==> index[id] < |records| && records[index[id]].event.id == id)
    }

    ghost predicate Valid()
      reads this
    {
      Indexed(storeId, records, eventIndices)
    }

    constructor (id: EntityId)
      ensures Valid() && storeId == id && records == []
    {
      storeId := id;
      records, eventIndices := [], map[];
    }

    /** Reading through the index is the same as scanning the log. */
    method Get(id: EventId) returns (r: Option<StoredEvent>)
      requires Valid()
      ensures r == Scan(records, id)
      ensures r.Some? ==> r.value in records && r.value.event.id == id
      ensures r.None? ==> forall i :: 0 <= i < |records| ==> records[i].event.id != id
    {
      if id in eventIndices {
        ScanFinds(records, id, eventIndices[id]);
        r := Some(records[eventIndices[id]]);
      } else {
        ScanMisses(records, id);
        r := None;
      }
    }

    /** A record with a new id and the next cursor keeps log and index in step. */
    static lemma {:induction false} PushKeepsIndex(
      store: EntityId, records: seq<StoredEvent>, index: map<EventId, nat>, record: StoredEvent)
      requires Indexed(store, records, index) && |records| < MAX_RECORDS
      requires record.event.id !in index && record.cursor == MemoryToken(Cursor, store, |records| + 1)
      ensures Indexed(store, records + [record], index[record.event.id := |records|])
    {
      var longer := records + [record];
      assert forall i :: 0 <= i < |records| ==> longer[i] == records[i] && records[i].event.id in index;
    }

    /**
     * Appending a new id adds one record at the end; repeating an event answers the
     * original record; another event under a known id is refused. Nothing stored changes.
     */
    method Append(event: Event) returns (r: Result<StoredEvent, StorageError>)
      requires Valid() && |records| < MAX_RECORDS
      modifies this
      ensures Valid()
      ensures var known := Scan(old(records), event.id);
              if known.None? then
                && r == Ok(StoredEvent(MemoryToken(Cursor, storeId, |old(records)| + 1), event))
                && records == old(records) + [r.value]
              else
                && records == old(records)
                && r == if known.value.event == event then Ok(known.value) else Err(EventConflict(event.id))
    {
      if event.id in eventIndices {
        var existing := records[eventIndices[event.id]];
        ScanFinds(records, event.id, eventIndices[event.id]);
        r := if existing.event == event then Ok(existing) else Err(EventConflict(event.id));
      } else {
        ScanMisses(records, event.id);
        var cursor := EncodeMemoryToken(Cursor, storeId, |records| + 1);
        var record := StoredEvent(cursor, event);
        PushKeepsIndex(storeId, records, eventIndices, record);
        eventIndices := eventIndices[event.id := |records|];
        records := records + [record];
        r := Ok(record);
      }
    }

    /** The one pass over the log: skip to the cursor, keep what matches, stop one past the limit. */
    method ScanMatches(q: EventQuery, start: nat, bound: nat) returns (found: seq<StoredEvent>)
      requires start <= bound <= |records|
      ensures found == Take(Matching(q, records[..bound][start..]), q.limit + 1)
    {
      found := [];
      var i := start;
      while i < bound && |found| <= q.limit
        invariant start <= i <= bound && |found| <= q.limit + 1
        invariant found == Matching(q, records[start..i])
      {
        assert records[start..i + 1][..i - start] == records[start..i];
        if Matches(q, records[i].event) {
          found := found + [records[i]];
        }
        i := i + 1;
      }
      var window := records[..bound][start..];
      assert window[..i - start] == records[start..i];
      MatchingPrefix(q, window, i - start);
      assert i == bound ==> window[i - start..] == [];
    }

    /** `query`: validate, place the bound and the cursor, scan, and cut the page at its limit. */
    method QueryPage(q: EventQuery) returns (r: Result<EventPage, StorageError>)
      requires Valid()
      ensures r == Query(storeId, records, q)
      ensures r.Ok? ==> forall x :: x in r.value.events ==>
                                      && x in records
                                      && (q.session.Some? ==> x.event.session == q.session.value)
                                      && (q.actor.Some? ==> x.event.actor == q.actor.value)
                                      && (q.eventTypes != {} ==> EventType(x.event) in q.eventTypes)
                                      && (q.occurredFrom.Some? ==> q.occurredFrom.value <= x.event.occurredAt)
                                      && (q.occurredUntil.Some? ==> x.event.occurredAt < q.occurredUntil.value)
    {
      PageMeetsFilters(storeId, records, q);
      var invalid := Validate(q);
      if invalid.Some? {
        return Err(invalid.value);
      }
      var bound := |records|;
      if q.upperBound.Some? {
        var position := CheckpointPosition(q.upperBound.value, storeId, |records|);
        if position.None? {
          return Err(InvalidCheckpoint);
        }
        bound := position.value;
      }
      var start := 0;
      if q.after.Some? {
        var position := CursorPosition(q.after.value, storeId, |records|);
        if position.None? {
          return Err(InvalidCursor);
        }
        start := position.value;
      }
      if start > bound {
        return Err(InvalidCursor);
      }
      var found := ScanMatches(q, start, bound);
      if |found| > q.limit {
        r := Ok(EventPage(found[..q.limit], Some(found[q.limit - 1].cursor)));
      } else {
        r := Ok(EventPage(found, None));
      }
    }

    /** The checkpoint freezes the records appended so far. */
    method CaptureCheckpoint() returns (checkpoint: Token)
      requires Valid()
      ensures CheckpointPosition(checkpoint, storeId, |records|) == Some(|records|)
    {
      checkpoint := EncodeMemoryToken(Checkpoint, storeId, |records|);
      MemoryTokenDecodesExactly(checkpoint, Checkpoint, storeId, |records|);
    }
  }

  // ---------------------------------------------------------------------------
  // Paged replay.

  lemma {:induction false} MatchingAppend(q: EventQuery, a: seq<StoredEvent>, b: seq<StoredEvent>)
    ensures Matching(q, a + b) == Matching(q, a) + Matching(q, b)
    decreases |b|
  {
    if b == [] {
      assert a + b == a;
    } else {
      assert (a + b)[..|a + b| - 1] == a + b[..|b| - 1];
      MatchingAppend(q, a, b[..|b| - 1]);
    }
  }

  /** Only the filters decide what matches, not the paging controls. */
  lemma {:induction false} MatchingIgnoresPaging(q: EventQuery, q': EventQuery, records: seq<StoredEvent>)
    requires q' == q.(after := q'.after, upperBound := q'.upperBound, limit := q'.limit)
    ensures Matching(q', records) == Matching(q, records)
    decreases |records|
  {
    if records != [] {
      MatchingIgnoresPaging(q, q', records[..|records| - 1]);
    }
  }

  /** The k-th match of a log: where it sits, and that the log up to there holds exactly k matches. */
  lemma {:induction false} MatchPosition(q: EventQuery, records: seq<StoredEvent>, k: nat) returns (p: nat)
    requires 0 < k <= |Matching(q, records)|
    ensures 0 < p <= |records| && records[p - 1] == Matching(q, records)[k - 1]
    ensures Matching(q, records[..p]) == Matching(q, records)[..k]
    decreases |records|
  {
    var n := |records| - 1;
    var before := Matching(q, records[..n]);
    if k <= |before| {
      p := MatchPosition(q, records[..n], k);
      assert records[..n][..p] == records[..p];
    } else {
      p := n + 1;
      assert records[..p] == records;
    }
  }

  /** How far a client following `next_cursor` has got. */
  datatype Progress = Progress(events: seq<StoredEvent>, next: Option<Token>, done: bool)

  /** One page: the log as it stood when the page was read, and the limit asked for. */
  datatype PageRead = PageRead(log: seq<StoredEvent>, limit: nat)

  /** Asking for the next page and following its cursor. */
  function ReadPage(store: EntityId, q: EventQuery, soFar: Progress, read: PageRead): Result<Progress, StorageError> {
    match Query(store, read.log, q.(after := soFar.next, limit := read.limit))
    case Err(e) => Err(e)
    case Ok(page) => Ok(Progress(soFar.events + page.events, page.nextCursor, page.nextCursor.None?))
  }

  /** Reading pages until one has no next cursor. */
  function ReadPages(store: EntityId, q: EventQuery, fetches: seq<PageRead>): Result<Progress, StorageError> {
    if fetches == [] then Ok(Progress([], None, false)) else
    match ReadPages(store, q, fetches[..|fetches| - 1])
    case Err(e) => Err(e)
    case Ok(p) => if p.done then Ok(p) else ReadPage(store, q, p, fetches[|fetches| - 1])
  }

  /** Writers may append between pages; limits stay in range. */
  ghost predicate GrowingLog(store: EntityId, fetches: seq<PageRead>) {
    && (forall i :: 0 <= i < |fetches| ==> WellFormedLog(store, fetches[i].log) && 1 <= fetches[i].limit <= MAX_LIMIT)
    && (forall i, j :: 0 <= i < j < |fetches| ==> fetches[i].log <= fetches[j].log)
  }

  /** The records a page read may look at. */
  function Window(q: EventQuery, store: EntityId, log: seq<StoredEvent>): seq<StoredEvent> {
    var bound := if q.upperBound.Some? then DecodeMemoryToken(q.upperBound.value, Checkpoint, store) else None;
    if bound.Some? && bound.value <= |log| then log[..bound.value] else log
  }

  /** A query that can start a replay: its filters are valid and its checkpoint, if any, was taken earlier. */
  ghost predicate StartsReplay(q: EventQuery, store: EntityId, log: seq<StoredEvent>) {
    && q.after.None?
    && Validate(q.(limit := 1)).None?
    && (q.upperBound.Some? ==> CheckpointPosition(q.upperBound.value, store, |log|).Some?)
  }

  /** A client whose next cursor is position `at`: it has the matches up to there, and more remain. */
  ghost predicate Halfway(q: EventQuery, store: EntityId, log: seq<StoredEvent>, pages: nat, p: Progress, at: u64) {
    && 0 < at < |Window(q, store, log)| && p.next == Some(MemoryToken(Cursor, store, at))
    && p.events == Matching(q, log[..at]) && pages <= |p.events| < |Matching(q, Window(q, store, log))|
  }

  /**
   * What a client has after some pages: while more remain, the matches up to the cursor
   * and at least one per page; when done, every match of the window.
   */
  ghost predicate OnTrack(q: EventQuery, store: EntityId, log: seq<StoredEvent>, pages: nat, p: Progress) {
    if p.done then p.events == Matching(q, Window(q, store, log))
    else if p.next.None? then p.events == [] && pages == 0
    else exists at :: Halfway(q, store, log, pages, p, at)
  }

  lemma {:induction false} MatchingPrefix(q: EventQuery, records: seq<StoredEvent>, n: nat)
    requires n <= |records|
    ensures Matching(q, records) == Matching(q, records[..n]) + Matching(q, records[n..])
  {
    assert records == records[..n] + records[n..];
    MatchingAppend(q, records[..n], records[n..]);
  }

  /** A later, longer log keeps a client that is not done on track. */
  lemma {:induction false} GrowthKeepsTrack(
    q: EventQuery, store: EntityId, log: seq<StoredEvent>, longer: seq<StoredEvent>, pages: nat, p: Progress)
    requires log <= longer && StartsReplay(q, store, log) && OnTrack(q, store, log, pages, p) && !p.done
    ensures StartsReplay(q, store, longer) && OnTrack(q, store, longer, pages, p)
  {
    var w, w' := Window(q, store, log), Window(q, store, longer);
    assert w <= w';
    if p.next.Some? {
      var at: u64 :| Halfway(q, store, log, pages, p, at);
      assert longer[..at] == log[..at];
      assert w'[..|w|] == w;
      MatchingPrefix(q, w', |w|);
      assert Halfway(q, store, longer, pages, p, at);
    }
  }

  /** The query a page is read with sees the window from the client's position on. */
  lemma {:induction false} PageSeesRest(
    q: EventQuery, store: EntityId, log: seq<StoredEvent>, at: nat, next: Option<Token>, limit: nat)
    requires WellFormedLog(store, log) && StartsReplay(q, store, log) && 1 <= limit <= MAX_LIMIT
    requires at <= |Window(q, store, log)|
    requires if at == 0 then next.None? else next == Some(MemoryToken(Cursor, store, at))
    ensures var rest := Matching(q, Window(q, store, log)[at..]);
            Query(store, log, q.(after := next, limit := limit)) ==
            if |rest| > limit then Ok(EventPage(rest[..limit], Some(rest[limit - 1].cursor))) else Ok(EventPage(rest, None))
  {
    var q' := q.(after := next, limit := limit);
    if at > 0 {
      MemoryTokenDecodesExactly(next.value, Cursor, store, at);
    }
    assert Validate(q').None?;
    var w := Window(q, store, log);
    assert log[..|log|] == log;
    MatchingIgnoresPaging(q, q', w[at..]);
    var rest := Matching(q, w[at..]);
    if |rest| > limit {
      assert rest[..limit + 1][..limit] == rest[..limit];
    }
  }

  /** Where a full page leaves the cursor. */
  lemma {:induction false} FullPageEndsAt(q: EventQuery, window: seq<StoredEvent>, at: nat, limit: nat) returns (position: nat)
    requires at <= |window| && 0 < limit < |Matching(q, window[at..])|
    ensures var have, rest := Matching(q, window[..at]), Matching(q, window[at..]);
            && 0 < position < |window| && window[position - 1] == rest[limit - 1]
            && Matching(q, window[..position]) == have + rest[..limit]
  {
    MatchingPrefix(q, window, at);
    var have, rest := Matching(q, window[..at]), Matching(q, window[at..]);
    position := MatchPosition(q, window, |have| + limit);
    assert window[..|window|] == window;
  }

  /** A page leads from position `at` to the next cursor, or to the end of the window. */
  lemma {:induction false} PageFrom(
    q: EventQuery, store: EntityId, log: seq<StoredEvent>, pages: nat, at: u64, page: EventPage, limit: nat)
    requires WellFormedLog(store, log) && limit > 0 && at <= |Window(q, store, log)|
    requires pages <= |Matching(q, log[..at])|
    requires var rest := Matching(q, Window(q, store, log)[at..]);
             page == if |rest| > limit then EventPage(rest[..limit], Some(rest[limit - 1].cursor)) else EventPage(rest, None)
    ensures OnTrack(q, store, log, pages + 1, Progress(Matching(q, log[..at]) + page.events, page.nextCursor, page.nextCursor.None?))
  {
    var w := Window(q, store, log);
    assert w[..at] == log[..at];
    MatchingPrefix(q, w, at);
    if page.nextCursor.Some? {
      var position := FullPageEndsAt(q, w, at, limit);
      assert w[..position] == log[..position] && w[position - 1] == log[position - 1];
      assert Halfway(q, store, log, pages + 1, Progress(Matching(q, log[..at]) + page.events, page.nextCursor, false), position);
    }
  }

  /** One page never errors and keeps the client on track. */
  lemma {:induction false} PageKeepsTrack(
    q: EventQuery, store: EntityId, log: seq<StoredEvent>, pages: nat, p: Progress, limit: nat)
    requires WellFormedLog(store, log) && StartsReplay(q, store, log) && 1 <= limit <= MAX_LIMIT
    requires OnTrack(q, store, log, pages, p) && !p.done
    ensures ReadPage(store, q, p, PageRead(log, limit)).Ok?
    ensures OnTrack(q, store, log, pages + 1, ReadPage(store, q, p, PageRead(log, limit)).value)
  {
    var at: u64 := 0;
    if p.next.Some? {
      at :| Halfway(q, store, log, pages, p, at);
    }
    PageSeesRest(q, store, log, at, p.next, limit);
    PageFrom(q, store, log, pages, at, Query(store, log, q.(after := p.next, limit := limit)).value, limit);
  }

  lemma {:induction false} PagesKeepTrack(store: EntityId, q: EventQuery, fetches: seq<PageRead>)
    requires fetches != [] && GrowingLog(store, fetches) && StartsReplay(q, store, fetches[0].log)
    requires |fetches| > 1 ==> ReadPages(store, q, fetches[..|fetches| - 1]).Ok? && !ReadPages(store, q, fetches[..|fetches| - 1]).value.done
    ensures ReadPages(store, q, fetches).Ok?
    ensures OnTrack(q, store, fetches[|fetches| - 1].log, |fetches|, ReadPages(store, q, fetches).value)
    ensures StartsReplay(q, store, fetches[|fetches| - 1].log)
    decreases |fetches|
  {
    var n := |fetches| - 1;
    var before, last := fetches[..n], fetches[n];
    assert ReadPages(store, q, []) == Ok(Progress([], None, false));
    if n == 0 {
      assert before == [];
      PageKeepsTrack(q, store, last.log, 0, Progress([], None, false), last.limit);
    } else {
      assert forall i :: 0 <= i < n ==> before[i] == fetches[i];
      if n > 1 {
        assert ReadPages(store, q, before[..n - 1]).Ok?;
        assert !ReadPages(store, q, before[..n - 1]).value.done;
      }
      PagesKeepTrack(store, q, before);
      var p := ReadPages(store, q, before).value;
      GrowthKeepsTrack(q, store, before[n - 1].log, last.log, n, p);
      PageKeepsTrack(q, store, last.log, n, p, last.limit);
    }
  }

  // ---------------------------------------------------------------------------
  // What a page holds, on the query's own fields.

  lemma {:induction false} MatchingHolds(q: EventQuery, records: seq<StoredEvent>)
    ensures forall x :: x in Matching(q, records) <==> x in records && Matches(q, x.event)
    decreases |records|
  {
    if records != [] {
      var n := |records| - 1;
      MatchingHolds(q, records[..n]);
      assert forall x :: x in records <==> x in records[..n] || x == records[n];
    }
  }

  /** Every returned event has the asked session and actor, a listed type, and a time from the start up to before the end. */
  lemma {:induction false} PageMeetsFilters(store: EntityId, records: seq<StoredEvent>, q: EventQuery)
    ensures Query(store, records, q).Ok? ==>
              forall x :: x in Query(store, records, q).value.events ==>
                            && x in records
                            && (q.session.Some? ==> x.event.session == q.session.value)
                            && (q.actor.Some? ==> x.event.actor == q.actor.value)
                            && (q.eventTypes != {} ==> EventType(x.event) in q.eventTypes)
                            && (q.occurredFrom.Some? ==> q.occurredFrom.value <= x.event.occurredAt)
                            && (q.occurredUntil.Some? ==> x.event.occurredAt < q.occurredUntil.value)
  {
    var r := Query(store, records, q);
    if r.Ok? {
      var bound := if q.upperBound.Some? then CheckpointPosition(q.upperBound.value, store, |records|).value else |records|;
      var start := if q.after.Some? then CursorPosition(q.after.value, store, |records|).value else 0;
      MatchingHolds(q, records[..bound][start..]);
      assert forall x :: x in r.value.events ==> x in Matching(q, records[..bound][start..]);
    }
  }

  /** A page is the matches from its start to its end: the next cursor's position if it has one, else the bound. */
  lemma {:induction false} PageIsMatching(store: EntityId, records: seq<StoredEvent>, q: EventQuery, start: nat, bound: nat) returns (end: nat)
    requires WellFormedLog(store, records) && q.limit > 0 && start <= bound <= |records|
    ensures start <= end <= bound
    ensures var found := Matching(q, records[..bound][start..]);
            if |found| > q.limit then
              found[..q.limit] == Matching(q, records[start..end]) && found[q.limit - 1].cursor == MemoryToken(Cursor, store, end)
            else found == Matching(q, records[start..end]) && end == bound
  {
    var window := records[..bound][start..];
    var found := Matching(q, window);
    end := bound;
    if |found| > q.limit {
      var p := MatchPosition(q, window, q.limit);
      end := start + p;
      assert window[p - 1] == records[end - 1];
    }
    assert forall i :: 0 <= i < |window| ==> window[i] == records[start + i];
    assert window[..end - start] == records[start..end];
    assert window[..|window|] == window;
  }

  /**
   * And every record after the cursor and below the bound that meets the filters is on the
   * page, up to where the page ends: at its next cursor if it has one, else at the bound.
   */
  lemma {:induction false} PageMissesNothing(store: EntityId, records: seq<StoredEvent>, q: EventQuery, start: nat, bound: nat)
    returns (end: nat)
    requires WellFormedLog(store, records) && Query(store, records, q).Ok?
    requires StartsAt(store, |records|, q, start) && EndsAt(store, |records|, q, bound)
    ensures start <= end <= bound <= |records|
    ensures var page := Query(store, records, q).value;
            if page.nextCursor.Some? then page.nextCursor == Some(MemoryToken(Cursor, store, end)) && |page.events| == q.limit else end == bound
    ensures forall i :: start <= i < end
                        && (q.session.Some? ==> records[i].event.session == q.session.value)
                        && (q.actor.Some? ==> records[i].event.actor == q.actor.value)
                        && (q.eventTypes == {} || EventType(records[i].event) in q.eventTypes)
                        && (q.occurredFrom.Some? ==> q.occurredFrom.value <= records[i].event.occurredAt)
                        && (q.occurredUntil.Some? ==> records[i].event.occurredAt < q.occurredUntil.value) ==>
                        records[i] in Query(store, records, q).value.events
  {
    if q.after.Some? {
      StartIsOwnCursor(store, |records|, q, start);
    }
    if q.upperBound.Some? {
      EndIsOwnCheckpoint(store, |records|, q, bound);
    }
    end := PageIsMatching(store, records, q, start, bound);
    MatchingHolds(q, records[start..end]);
    var page := Query(store, records, q).value;
    assert page.events == Matching(q, records[start..end]);
    forall i | start <= i < end && Matches(q, records[i].event) ensures records[i] in page.events {
      assert records[i] == records[start..end][i - start];
    }
  }

  /** The query goes on after record n: from the start, or by the store's own cursor for n. */
  ghost predicate StartsAt(store: EntityId, count: nat, q: EventQuery, n: nat) {
    if q.after.None? then n == 0 else 0 < n <= count && n <= U64_MAX && q.after.value == MemoryToken(Cursor, store, n)
  }

  /** The query stops before record n: at the end, or by the store's own checkpoint for n. */
  ghost predicate EndsAt(store: EntityId, count: nat, q: EventQuery, n: nat) {
    if q.upperBound.None? then n == count else n <= count && n <= U64_MAX && q.upperBound.value == MemoryToken(Checkpoint, store, n)
  }

  lemma {:induction false} StartIsOwnCursor(store: EntityId, count: nat, q: EventQuery, n: nat)
    requires count <= MAX_RECORDS && q.after.Some?
    ensures StartsAt(store, count, q, n) <==> CursorPosition(q.after.value, store, count) == Some(n)
  {
    if n <= U64_MAX {
      MemoryTokenDecodesExactly(q.after.value, Cursor, store, n);
    }
  }

  lemma {:induction false} EndIsOwnCheckpoint(store: EntityId, count: nat, q: EventQuery, n: nat)
    requires count <= MAX_RECORDS && q.upperBound.Some?
    ensures EndsAt(store, count, q, n) <==> CheckpointPosition(q.upperBound.value, store, count) == Some(n)
  {
    if n <= U64_MAX {
      MemoryTokenDecodesExactly(q.upperBound.value, Checkpoint, store, n);
    }
  }

  /** A query is malformed by its limit, a blank type, or times in the wrong order, and by nothing else. */
  lemma {:induction false} MalformedExactly(store: EntityId, records: seq<StoredEvent>, q: EventQuery)
    ensures Query(store, records, q) == Err(InvalidQuery) <==>
            || q.limit < 1 || q.limit > 1000
            || (exists t :: t in q.eventTypes && forall i :: 0 <= i < |t| ==> t[i] in {' ', '\t', '\n', '\r'})
            || (q.occurredFrom.Some? && q.occurredUntil.Some? && q.occurredFrom.value >= q.occurredUntil.value)
  {
    assert forall t :: t in q.eventTypes ==> (IsBlank(t) <==> forall i :: 0 <= i < |t| ==> t[i] in {' ', '\t', '\n', '\r'});
  }

  /**
   * A well-formed query is answered exactly when its cursor and checkpoint are the store's
   * own and the cursor is not beyond the checkpoint; otherwise the one at fault is named.
   */
  lemma {:induction false} AnsweredExactly(store: EntityId, records: seq<StoredEvent>, q: EventQuery)
    requires WellFormedLog(store, records) && Query(store, records, q) != Err(InvalidQuery)
    ensures var r, count := Query(store, records, q), |records|;
            && (r.Ok? <==> exists m, n :: StartsAt(store, count, q, m) && EndsAt(store, count, q, n) && m <= n)
            && (r.Err? ==> r.error.InvalidCursor? || r.error.InvalidCheckpoint?)
            && (r == Err(InvalidCheckpoint) ==> forall n :: !EndsAt(store, count, q, n))
            && (r == Err(InvalidCursor) ==> forall m, n :: StartsAt(store, count, q, m) && EndsAt(store, count, q, n) ==> m > n)
  {
    var count := |records|;
    forall m ensures q.after.Some? ==> (StartsAt(store, count, q, m) <==> CursorPosition(q.after.value, store, count) == Some(m)) {
      if m >= 0 && q.after.Some? {
        StartIsOwnCursor(store, count, q, m);
      }
    }
    forall n ensures q.upperBound.Some? ==> (EndsAt(store, count, q, n) <==> CheckpointPosition(q.upperBound.value, store, count) == Some(n)) {
      if n >= 0 && q.upperBound.Some? {
        EndIsOwnCheckpoint(store, count, q, n);
      }
    }
    var r := Query(store, records, q);
    if r.Ok? {
      var m := if q.after.Some? then CursorPosition(q.after.value, store, count).value else 0;
      var n := if q.upperBound.Some? then CheckpointPosition(q.upperBound.value, store, count).value else count;
      assert StartsAt(store, count, q, m) && EndsAt(store, count, q, n) && m <= n;
    }
  }

  // ---------------------------------------------------------------------------
  // Main results.

  /** The page on which the client stops, if it stops: no later page is read. */
  ghost predicate StillReading(store: EntityId, q: EventQuery, fetches: seq<PageRead>) {
    fetches != [] ==> ReadPages(store, q, fetches[..|fetches| - 1]).Ok? && !ReadPages(store, q, fetches[..|fetches| - 1]).value.done
  }

  /** What the client has is a prefix of what the window holds, and all of it exactly when done. */
  lemma {:induction false} TrackIsPrefix(q: EventQuery, store: EntityId, log: seq<StoredEvent>, pages: nat, p: Progress)
    requires pages > 0 && OnTrack(q, store, log, pages, p)
    ensures var all := Matching(q, Window(q, store, log));
            p.events <= all && (p.done <==> p.events == all) && (!p.done ==> pages < |all|)
  {
    if !p.done {
      var w := Window(q, store, log);
      var at: u64 :| Halfway(q, store, log, pages, p, at);
      assert w[..at] == log[..at];
      MatchingPrefix(q, w, at);
    }
  }

  /**
   * Replay under a checkpoint: following `next_cursor` with any limits and any appends
   * between pages never errors, yields a prefix of the matches of the frozen prefix,
   * all of them once it is done, and is done after at most one page per match.
   */
  lemma {:induction false} CheckpointedReplay(store: EntityId, q: EventQuery, fetches: seq<PageRead>, frozen: u64)
    requires fetches != [] && GrowingLog(store, fetches) && StartsReplay(q, store, fetches[0].log)
    requires StillReading(store, q, fetches)
    requires q.upperBound == Some(MemoryToken(Checkpoint, store, frozen)) && frozen <= |fetches[0].log|
    ensures ReadPages(store, q, fetches).Ok?
    ensures var p, all := ReadPages(store, q, fetches).value, Matching(q, fetches[0].log[..frozen]);
            && p.events <= all
            && (p.done <==> p.events == all)
            && (|fetches| >= |all| ==> p.done)
  {
    PagesKeepTrack(store, q, fetches);
    MemoryTokenDecodesExactly(q.upperBound.value, Checkpoint, store, frozen);
    var log := fetches[|fetches| - 1].log;
    assert fetches[0].log <= log;
    assert Window(q, store, log) == fetches[0].log[..frozen];
    TrackIsPrefix(q, store, log, |fetches|, ReadPages(store, q, fetches).value);
  }

  /** Replay without a checkpoint ends with every match of the log as the last page saw it. */
  lemma {:induction false} UnboundedReplay(store: EntityId, q: EventQuery, fetches: seq<PageRead>)
    requires fetches != [] && GrowingLog(store, fetches) && StartsReplay(q, store, fetches[0].log)
    requires StillReading(store, q, fetches) && q.upperBound.None?
    ensures ReadPages(store, q, fetches).Ok?
    ensures var p, all := ReadPages(store, q, fetches).value, Matching(q, fetches[|fetches| - 1].log);
            && p.events <= all
            && (p.done <==> p.events == all)
  {
    PagesKeepTrack(store, q, fetches);
    var log := fetches[|fetches| - 1].log;
    TrackIsPrefix(q, store, log, |fetches|, ReadPages(store, q, fetches).value);
  }
}
