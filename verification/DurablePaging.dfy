/**
 Durable records: the relational table as a keyed map, the byte-bounded page of `records/read`,
 the size gate of `worker/append`, and acknowledgement. `encode` is the JSON encoding of a record.
 */
module DurablePaging {
  import opened Text

  const MaximumBody := 65536
  const MaximumRecord := 65534
  const MaximumSequence := 9007199254740991

  datatype Kind = Message | Notification | TaskStatus

  datatype StreamKey = StreamKey(tenantId: string, ownerId: string, streamId: string, kind: Kind)

  datatype Record = Record(sequence: int, payload: string, createdAt: int, expiresAt: Option<int>)

  datatype Slot = Slot(stream: StreamKey, sequence: int)

  type Rows = map<Slot, Record>

  /** The answer of an endpoint: records, done, or an HTTP status. */
  datatype Outcome<T> = Ok(value: T) | Status(code: int)

  // ---- Streams --------------------------------------------------------------------------------

  function Of(rows: Rows, stream: StreamKey): map<int, Record> {
    map slot | slot in rows && slot.stream == stream :: slot.sequence := rows[slot]
  }

  predicate IsLive(r: Record, now: int) {
    r.expiresAt.None? || r.expiresAt.value > now
  }

  /** Sequences above the cursor that a read at `now` may return. */
  function Live(records: map<int, Record>, after: int, now: int): set<int> {
    set n | n in records && n > after && IsLive(records[n], now)
  }

  ghost predicate Numbered(records: map<int, Record>) {
    forall n | n in records :: records[n].sequence == n
  }

  ghost predicate Ascending(page: seq<Record>) {
    forall i, j | 0 <= i < j < |page| :: page[i].sequence < page[j].sequence
  }

  ghost predicate Has(page: seq<Record>, n: int) {
    exists i :: 0 <= i < |page| && page[i].sequence == n
  }

  /** `page` is an initial piece, in order and without gaps, of the live records above the cursor. */
  ghost predicate IsFront(records: map<int, Record>, after: int, now: int, page: seq<Record>) {
    && Ascending(page)
    && (forall i | 0 <= i < |page| ::
          page[i].sequence in Live(records, after, now) && page[i] == records[page[i].sequence])
    && (forall n, i | n in Live(records, after, now) && 0 <= i < |page| && n <= page[i].sequence :: Has(page, n))
  }

  ghost predicate IsAll(records: map<int, Record>, after: int, now: int, page: seq<Record>) {
    forall n | n in Live(records, after, now) :: Has(page, n)
  }

  lemma FrontPrefix(records: map<int, Record>, after: int, now: int, page: seq<Record>, k: nat)
    requires IsFront(records, after, now, page) && k <= |page|
    ensures IsFront(records, after, now, page[..k])
  {
    forall n, i | n in Live(records, after, now) && 0 <= i < k && n <= page[i].sequence
      ensures Has(page[..k], n)
    {
      var j :| 0 <= j < |page| && page[j].sequence == n;
      assert j <= i;
      assert page[..k][j].sequence == n;
    }
  }

  lemma FrontExtends(records: map<int, Record>, after: int, now: int, page: seq<Record>, n: int)
    requires Numbered(records) && IsFront(records, after, now, page) && n in Live(records, after, now) && !Has(page, n)
    requires forall k | k in Live(records, after, now) && !Has(page, k) :: n <= k
    ensures IsFront(records, after, now, page + [records[n]])
  {
    var longer := page + [records[n]];
    assert forall i | 0 <= i < |page| :: page[i].sequence < n;
    forall k | k in Live(records, after, now) && k <= n
      ensures Has(longer, k)
    {
      if k == n {
        assert longer[|page|].sequence == k;
      } else {
        var j :| 0 <= j < |page| && page[j].sequence == k;
        assert longer[j].sequence == k;
      }
    }
  }

  // ---- Response body --------------------------------------------------------------------------

  function Joined(encode: Record -> seq<int>, page: seq<Record>): seq<int> {
    if page == [] then []
    else
      var last := |page| - 1;
      Joined(encode, page[..last]) + (if last == 0 then [] else [44]) + encode(page[last])
  }

  /** The bytes of the response: an opening bracket, the encodings between commas, a closing bracket. */
  function Body(encode: Record -> seq<int>, page: seq<Record>): seq<int> {
    [91] + Joined(encode, page) + [93]
  }

  ghost function BodyLength(encode: Record -> seq<int>, records: seq<Record>, count: nat): nat
    requires count <= |records|
  {
    |Body(encode, records[..count])|
  }

  lemma BodyGrows(encode: Record -> seq<int>, records: seq<Record>, count: nat)
    requires count < |records|
    ensures BodyLength(encode, records, count + 1)
            == BodyLength(encode, records, count) + |encode(records[count])| + (if count == 0 then 0 else 1)
  {
    assert records[..count + 1][..count] == records[..count];
  }

  predicate IsValidId(s: string) {
    !IsBlank(s) && |s| <= 128
  }

  predicate IsValidStream(stream: StreamKey) {
    IsValidId(stream.tenantId) && IsValidId(stream.ownerId) && IsValidId(stream.streamId)
  }

  /** What the append endpoint lets through. */
  predicate PassesGate(encode: Record -> seq<int>, r: Record) {
    1 <= r.sequence <= MaximumSequence && |encode(r)| <= MaximumRecord
  }

  ghost predicate AllPassed(encode: Record -> seq<int>, records: map<int, Record>) {
    Numbered(records) && forall n | n in records :: PassesGate(encode, records[n])
  }

  /** The append gate is exactly what a page of one record can hold. */
  lemma GateIsOneRecord(encode: Record -> seq<int>, r: Record)
    ensures PassesGate(encode, r) <==> 0 < r.sequence < 0x20_0000_0000_0000 && |Body(encode, [r])| <= MaximumBody
  {
    BodyIsArray(encode, [r]);
    assert [r][..0] == [];
    assert Encoded(encode, [r][..0]) == 0;
  }

  /** The bytes of all records. */
  ghost function Encoded(encode: Record -> seq<int>, page: seq<Record>): nat {
    if page == [] then 0 else Encoded(encode, page[..|page| - 1]) + |encode(page[|page| - 1])|
  }

  /** A body is an array: two brackets, the records, and a comma between each two of them. */
  lemma {:induction false} BodyIsArray(encode: Record -> seq<int>, page: seq<Record>)
    ensures var body := Body(encode, page);
            && |body| == 2 + Encoded(encode, page) + (if page == [] then 0 else |page| - 1)
            && body[0] == 91 && body[|body| - 1] == 93
            && (page != [] ==> encode(page[|page| - 1]) + [93] <= body[|body| - 1 - |encode(page[|page| - 1])|..])
  {
    if page != [] {
      var last := |page| - 1;
      BodyIsArray(encode, page[..last]);
      var body, tail := Body(encode, page), encode(page[last]) + [93];
      assert body == [91] + Joined(encode, page[..last]) + (if last == 0 then [] else [44]) + tail;
      assert body[|body| - |tail|..] == tail;
    }
  }

  /** A stream is named by three texts, each of at most 128 characters and not blank. */
  lemma StreamIsValidIff(stream: StreamKey)
    ensures IsValidStream(stream) <==>
            forall id | id in {stream.tenantId, stream.ownerId, stream.streamId} ::
              1 <= |id| <= 128 && exists i :: 0 <= i < |id| && !IsWhiteSpace(id[i])
  {
  }

  /** What a page shows: the records above the cursor up to its last one that have not expired. */
  lemma PageShowsExactly(records: map<int, Record>, after: int, now: int, page: seq<Record>, n: int)
    requires Numbered(records) && IsFront(records, after, now, page)
    ensures var readable := && n in records && after < n
                            && (records[n].expiresAt == None || now < records[n].expiresAt.value);
            && (Has(page, n) <==> readable && page != [] && n <= page[|page| - 1].sequence)
            && (IsAll(records, after, now, page) ==> (Has(page, n) <==> readable))
  {
    if Has(page, n) {
      var i :| 0 <= i < |page| && page[i].sequence == n;
      assert i < |page| - 1 ==> page[i].sequence < page[|page| - 1].sequence;
    }
  }

  /** Nothing else would have fitted: the page is complete, at its limit, or the next record is too long. */
  ghost predicate IsMaximal(
    encode: Record -> seq<int>, records: map<int, Record>, after: int, now: int, limit: int, page: seq<Record>)
  {
    || IsAll(records, after, now, page) || |page| == limit
    || exists n :: n in Live(records, after, now) && IsFront(records, after, now, page + [records[n]])
                   && |Body(encode, page + [records[n]])| > MaximumBody
  }

  lemma Inhabited(s: set<int>)
    requires s != {}
    ensures exists n :: n in s
  {
    var none: set<int> := {};
    assert (forall n :: n in s <==> n in none) ==> s == none;
  }

  method Least(s: set<int>) returns (n: int)
    requires s != {}
    ensures n in s && forall k | k in s :: n <= k
  {
    Inhabited(s);
    n :| n in s;
    var rest := s - {n};
    while rest != {}
      invariant n in s && rest <= s && forall k | k in s && k !in rest :: n <= k
    {
      Inhabited(rest);
      var k :| k in rest;
      rest := rest - {k};
      if k < n {
        n := k;
      }
    }
  }

  /** The page loop over the selected records. */
  method FitPage(encode: Record -> seq<int>, records: seq<Record>) returns (count: nat, outcome: Outcome<seq<Record>>)
    ensures outcome.Ok? ==>
      && count <= |records| && outcome.value == records[..count] && BodyLength(encode, records, count) <= MaximumBody
      && (count < |records| ==> count > 0 && BodyLength(encode, records, count + 1) > MaximumBody)
    ensures outcome.Status? ==>
      && (outcome.code == 400 || outcome.code == 413)
      && exists i ::
           0 <= i < |records| && (records[i].sequence > MaximumSequence || |encode(records[i])| > MaximumRecord)
  {
    var bytes := 2;
    count := 0;
    while count < |records|
      invariant 0 <= count <= |records| && bytes == BodyLength(encode, records, count) <= MaximumBody
    {
      if records[count].sequence > MaximumSequence {
        return count, Status(400);
      }
      var size := |encode(records[count])| + if count == 0 then 0 else 1;
      BodyGrows(encode, records, count);
      if bytes + size > MaximumBody {
        if count == 0 {
          return count, Status(413);
        }
        break;
      }
      bytes := bytes + size;
      count := count + 1;
    }
    outcome := Ok(records[..count]);
  }

  lemma PageIsMaximal(
    encode: Record -> seq<int>, records: map<int, Record>, after: int, now: int, limit: int,
    selected: seq<Record>, k: nat)
    requires IsFront(records, after, now, selected) && k <= |selected| <= limit
    requires |selected| == limit || IsAll(records, after, now, selected)
    requires k < |selected| ==> |Body(encode, selected[..k + 1])| > MaximumBody
    ensures IsFront(records, after, now, selected[..k]) && IsMaximal(encode, records, after, now, limit, selected[..k])
  {
    FrontPrefix(records, after, now, selected, k);
    if k == |selected| {
      assert selected[..k] == selected;
    } else {
      var n := selected[k].sequence;
      FrontPrefix(records, after, now, selected, k + 1);
      assert selected[..k] + [records[n]] == selected[..k + 1];
    }
  }

  function Above(records: map<int, Record>, through: int): map<int, Record> {
    map n | n in records && n > through :: records[n]
  }

  /** What paging has gathered when its cursor has reached `cursor`. */
  ghost predicate Collected(
    records: map<int, Record>, start: int, cursor: int, begin: int, finish: int, all: seq<Record>)
  {
    && Ascending(all)
    && (forall i | 0 <= i < |all| ::
          && all[i].sequence in Live(records, start, begin) && all[i].sequence <= cursor
          && all[i] == records[all[i].sequence])
    && (forall n | n in Live(records, start, finish) && n <= cursor :: Has(all, n))
  }

  lemma CollectPage(
    records: map<int, Record>, start: int, cursor: int, begin: int, now: int, finish: int, all: seq<Record>,
    page: seq<Record>)
    requires Collected(records, start, cursor, begin, finish, all) && start <= cursor && begin <= now <= finish
    requires IsFront(records, cursor, now, page) && page != []
    ensures var next := page[|page| - 1].sequence;
            && cursor < next && next in records && Live(records, next, begin) < Live(records, cursor, begin)
            && Collected(records, start, next, begin, finish, all + page)
  {
    var next, more := page[|page| - 1].sequence, all + page;
    assert next in Live(records, cursor, begin) && next !in Live(records, next, begin);
    forall n | n in Live(records, start, finish) && n <= next
      ensures Has(more, n)
    {
      if n <= cursor {
        var i :| 0 <= i < |all| && all[i].sequence == n;
        assert more[i].sequence == n;
      } else {
        assert n in Live(records, cursor, now);
        var i :| 0 <= i < |page| && page[i].sequence == n;
        assert more[|all| + i].sequence == n;
      }
    }
  }

  // ---- Paging while the table changes ---------------------------------------------------------

  /** One page request: the stream as it then was, the time, and the page that was returned. */
  datatype PageRead = PageRead(records: map<int, Record>, now: int, page: seq<Record>)

  function CursorAfter(start: int, requests: seq<PageRead>): int {
    if requests == [] then start
    else
      var page := requests[|requests| - 1].page;
      if page == [] then CursorAfter(start, requests[..|requests| - 1]) else page[|page| - 1].sequence
  }

  function Gathered(requests: seq<PageRead>): seq<Record> {
    if requests == [] then [] else Gathered(requests[..|requests| - 1]) + requests[|requests| - 1].page
  }

  /** Each request continues after the last sequence seen, on whatever the table holds by then. */
  ghost predicate IsPaging(start: int, requests: seq<PageRead>) {
    requests == [] ||
    var last := requests[|requests| - 1];
    && IsPaging(start, requests[..|requests| - 1])
    && IsFront(last.records, CursorAfter(start, requests[..|requests| - 1]), last.now, last.page)
  }

  /** In the table and live at every request. */
  ghost predicate Stays(requests: seq<PageRead>, n: int) {
    forall i | 0 <= i < |requests| :: n in requests[i].records && IsLive(requests[i].records[n], requests[i].now)
  }

  ghost predicate Between(all: seq<Record>, start: int, cursor: int) {
    start <= cursor && forall i | 0 <= i < |all| :: start < all[i].sequence <= cursor
  }

  lemma PageContinues(all: seq<Record>, start: int, cursor: int, r: PageRead)
    requires Ascending(all) && Between(all, start, cursor) && IsFront(r.records, cursor, r.now, r.page)
    ensures Ascending(all + r.page)
    ensures r.page != [] ==> Between(all + r.page, start, r.page[|r.page| - 1].sequence)
  {
    if r.page != [] {
      assert r.page[0].sequence in Live(r.records, cursor, r.now);
    }
  }

  lemma HasEither(a: seq<Record>, b: seq<Record>, n: int)
    requires Has(a, n) || Has(b, n)
    ensures Has(a + b, n)
  {
    if Has(a, n) {
      var i :| 0 <= i < |a| && a[i].sequence == n;
      assert (a + b)[i].sequence == n;
    } else {
      var i :| 0 <= i < |b| && b[i].sequence == n;
      assert (a + b)[|a| + i].sequence == n;
    }
  }

  /** The gathering so far: ascending, so without repeats, and without gaps for what stays in the table. */
  lemma {:induction false} PagingGathers(start: int, requests: seq<PageRead>, n: int)
    requires IsPaging(start, requests)
    ensures Ascending(Gathered(requests)) && Between(Gathered(requests), start, CursorAfter(start, requests))
    ensures start < n <= CursorAfter(start, requests) && Stays(requests, n) ==> Has(Gathered(requests), n)
  {
    if requests != [] {
      var past, r := requests[..|requests| - 1], requests[|requests| - 1];
      var cursor := CursorAfter(start, past);
      PagingGathers(start, past, n);
      PageContinues(Gathered(past), start, cursor, r);
      if start < n <= CursorAfter(start, requests) && Stays(requests, n) {
        assert Stays(past, n) by {
          assert forall i | 0 <= i < |past| :: past[i] == requests[i];
        }
        if n > cursor {
          assert n in Live(r.records, cursor, r.now);
        }
        HasEither(Gathered(past), r.page, n);
      }
    }
  }

  /**
   Whatever is appended, acknowledged or pruned between the requests: a client that pages until a page
   is empty has seen, in order and without repeats, every record above its start that was in the table
   and live all along.
   */
  lemma PagingUnderChanges(start: int, requests: seq<PageRead>, n: int)
    requires IsPaging(start, requests) && requests != [] && n > start && Stays(requests, n)
    requires var last := requests[|requests| - 1];
             last.page == [] && Live(last.records, CursorAfter(start, requests), last.now) == {}
    ensures Ascending(Gathered(requests)) && Has(Gathered(requests), n)
  {
    PagingGathers(start, requests, n);
    var last := requests[|requests| - 1];
    assert n in last.records && IsLive(last.records[n], last.now);
    assert n !in Live(last.records, CursorAfter(start, requests), last.now);
  }

  // ---- Acknowledgement ------------------------------------------------------------------------

  /** Live records that acknowledging through `through` deletes although `page` did not show them. */
  ghost function Lost(records: map<int, Record>, page: seq<Record>, through: int, now: int): set<int> {
    set n | n in records && n <= through && IsLive(records[n], now) && !Has(page, n)
  }

  /**
   Acknowledging the last sequence of a page, at any later time and whatever was appended, pruned or
   acknowledged since the read, loses a live record exactly when one lies at or below the page's cursor,
   or one was appended since the read at or below that last sequence.
   */
  lemma AcknowledgementLoses(
    read: map<int, Record>, current: map<int, Record>, cursor: int, now: int, later: int, page: seq<Record>)
    requires IsFront(read, cursor, now, page) && page != [] && now <= later
    requires forall n | n in read && n in current :: current[n] == read[n]
    ensures var through := page[|page| - 1].sequence;
            Lost(current, page, through, later) == {} <==>
            forall n | n in current && n <= through && IsLive(current[n], later) :: n in read && n > cursor
  {
    var through := page[|page| - 1].sequence;
    forall n | n in current && n <= through && IsLive(current[n], later)
      ensures !Has(page, n) <==> !(n in read && n > cursor)
    {
      if n in read && n > cursor {
        assert n in Live(read, cursor, now);
      }
    }
    if Lost(current, page, through, later) == {} {
      forall n | n in current && n <= through && IsLive(current[n], later)
        ensures n in read && n > cursor
      {
        assert n !in Lost(current, page, through, later);
      }
    }
  }

  /** A client that starts above a live record and acknowledges its page deletes that record unseen. */
  lemma SkippedRecordIsLost(skipped: Record, shown: Record, now: int)
    requires 1 <= skipped.sequence < shown.sequence && IsLive(skipped, now) && IsLive(shown, now)
    ensures var records := map[skipped.sequence := skipped, shown.sequence := shown];
            && IsFront(records, skipped.sequence, now, [shown])
            && Lost(records, [shown], shown.sequence, now) == {skipped.sequence}
  {
    var records := map[skipped.sequence := skipped, shown.sequence := shown];
    assert Live(records, skipped.sequence, now) == {shown.sequence};
    assert [shown][0].sequence == shown.sequence;
    assert Has([shown], shown.sequence) && !Has([shown], skipped.sequence);
  }

  /** With producers that append increasing sequences, only what lies at or below the cursor is lost. */
  lemma IncreasingProducersLoseNothing(
    read: map<int, Record>, current: map<int, Record>, cursor: int, now: int, later: int, page: seq<Record>)
    requires IsFront(read, cursor, now, page) && page != [] && now <= later
    requires forall n | n in read && n in current :: current[n] == read[n]
    requires forall n, k | n in current && n !in read && k in read :: k < n
    ensures Lost(current, page, page[|page| - 1].sequence, later) == {} <==>
            forall n | n in read && n in current && IsLive(read[n], later) :: n > cursor
  {
    AcknowledgementLoses(read, current, cursor, now, later, page);
    assert page[|page| - 1].sequence in Live(read, cursor, now);
  }

  class PersistenceStore {
    var rows: Rows
    const encode: Record -> seq<int>

    ghost predicate Valid()
      reads this
    {
      forall slot | slot in rows :: rows[slot].sequence == slot.sequence
    }

    constructor (encode: Record -> seq<int>)
      ensures Valid() && rows == map[] && this.encode == encode
    {
      rows := map[];
      this.encode := encode;
    }

    /** The insertion; a duplicate primary key is a database error. */
    method AppendAsync(stream: StreamKey, record: Record) returns (outcome: Outcome<()>)
      requires Valid()
      modifies this
      ensures Valid()
      ensures outcome.Ok? <==>
        IsValidStream(stream) && record.sequence >= 1 && Slot(stream, record.sequence) !in old(rows)
      ensures outcome.Status? ==>
        rows == old(rows) && outcome.code == if IsValidStream(stream) && record.sequence >= 1 then 503 else 400
      ensures outcome.Ok? ==> rows == old(rows)[Slot(stream, record.sequence) := record]
    {
      if !IsValidStream(stream) || record.sequence < 1 {
        return Status(400);
      }
      if Slot(stream, record.sequence) in rows {
        return Status(503);
      }
      rows := rows[Slot(stream, record.sequence) := record];
      outcome := Ok(());
    }

    /** The worker endpoint: only records that pass the gate reach the table. */
    method WorkerAppend(stream: StreamKey, record: Record) returns (outcome: Outcome<()>)
      requires Valid()
      modifies this
      ensures Valid()
      ensures outcome.Ok? <==>
        && stream.kind != TaskStatus && PassesGate(encode, record) && IsValidStream(stream)
        && Slot(stream, record.sequence) !in old(rows)
      ensures rows == if outcome.Ok? then old(rows)[Slot(stream, record.sequence) := record] else old(rows)
      ensures AllPassed(encode, old(Of(rows, stream))) ==> AllPassed(encode, Of(rows, stream))
      ensures forall other | other != stream :: Of(rows, other) == old(Of(rows, other))
    {
      if stream.kind == TaskStatus || record.sequence > MaximumSequence {
        return Status(400);
      }
      if |encode(record)| > MaximumRecord {
        return Status(413);
      }
      outcome := AppendAsync(stream, record);
      if outcome.Ok? {
        assert Of(rows, stream) == old(Of(rows, stream))[record.sequence := record];
      }
    }

    /** The ordered, limited selection. */
    method ReadAsync(stream: StreamKey, after: int, limit: int, now: int) returns (outcome: Outcome<seq<Record>>)
      requires Valid()
      ensures outcome.Ok? <==> IsValidStream(stream) && after >= 0 && 1 <= limit <= 1000
      ensures outcome.Status? ==> outcome.code == 400
      ensures outcome.Ok? ==>
        && IsFront(Of(rows, stream), after, now, outcome.value) && |outcome.value| <= limit
        && (|outcome.value| == limit || IsAll(Of(rows, stream), after, now, outcome.value))
    {
      if !IsValidStream(stream) || after < 0 || !(1 <= limit <= 1000) {
        return Status(400);
      }
      var records := Of(rows, stream);
      var result: seq<Record> := [];
      var remaining := Live(records, after, now);
      while |result| < limit && remaining != {}
        invariant |result| <= limit && IsFront(records, after, now, result)
        invariant forall n :: n in remaining <==> n in Live(records, after, now) && !Has(result, n)
      {
        var n := Least(remaining);
        FrontExtends(records, after, now, result, n);
        ghost var before := result;
        result := result + [records[n]];
        remaining := remaining - {n};
        forall k
          ensures Has(result, k) <==> Has(before, k) || k == n
        {
          assert result[|before|].sequence == n;
          if Has(before, k) {
            var i :| 0 <= i < |before| && before[i].sequence == k;
            assert result[i].sequence == k;
          }
        }
      }
      outcome := Ok(result);
    }

    /** `records/read`: the page and its body. */
    method ReadPage(stream: StreamKey, after: int, limit: int, now: int)
      returns (outcome: Outcome<seq<Record>>, body: seq<int>)
      requires Valid()
      ensures outcome.Ok? ==>
        && IsFront(Of(rows, stream), after, now, outcome.value)
        && (outcome.value == [] ==> Live(Of(rows, stream), after, now) == {})
        && IsMaximal(encode, Of(rows, stream), after, now, if limit < 100 then limit else 100, outcome.value)
        && body == Body(encode, outcome.value) && |body| <= MaximumBody
      ensures AllPassed(encode, Of(rows, stream)) ==>
        (outcome.Ok? <==>
         && 0 <= after <= MaximumSequence && 1 <= limit <= 1000 && stream.kind != TaskStatus && IsValidStream(stream))
      ensures outcome.Status? ==> outcome.code == 400 || outcome.code == 413
    {
      body := [];
      if after > MaximumSequence || !(1 <= limit <= 1000) || stream.kind == TaskStatus {
        return Status(400), body;
      }
      var taken := if limit < 100 then limit else 100;
      outcome := ReadAsync(stream, after, taken, now);
      if outcome.Status? {
        return;
      }
      var selected := outcome.value;
      var count;
      count, outcome := FitPage(encode, selected);
      if outcome.Ok? {
        body := Body(encode, outcome.value);
        PageIsMaximal(encode, Of(rows, stream), after, now, taken, selected, count);
      }
    }

    /** `records/ack`: the rows of the stream up to the sequence go, expired or not, and no others. */
    method Acknowledge(stream: StreamKey, through: int) returns (outcome: Outcome<()>)
      requires Valid()
      modifies this
      ensures Valid()
      ensures outcome.Ok? <==> stream.kind != TaskStatus && IsValidStream(stream) && through >= 0
      ensures Of(rows, stream) == if outcome.Ok? then Above(old(Of(rows, stream)), through) else old(Of(rows, stream))
      ensures forall other | other != stream :: Of(rows, other) == old(Of(rows, other))
    {
      if stream.kind == TaskStatus || !IsValidStream(stream) || through < 0 {
        return Status(400);
      }
      rows := map slot | slot in rows && !(slot.stream == stream && slot.sequence <= through) :: rows[slot];
      outcome := Ok(());
    }

    /** The expired rows go and no others, which no read from now on can tell. */
    method PruneExpired(now: int)
      requires Valid()
      modifies this
      ensures Valid()
      ensures forall slot | slot in rows :: IsLive(rows[slot], now)
      ensures forall slot | slot in old(rows) && IsLive(old(rows)[slot], now) ::
        slot in rows && rows[slot] == old(rows)[slot]
      ensures rows.Keys <= old(rows).Keys
      ensures forall stream, after, later | later >= now ::
        Live(Of(rows, stream), after, later) == Live(old(Of(rows, stream)), after, later)
    {
      rows := map slot | slot in rows && IsLive(rows[slot], now) :: rows[slot];
    }

    /**
     A client that pages with the last sequence it has seen, at any non-decreasing times, stops and
     has every record that stays live, once and in order, and nothing that was not live at the start.
     */
    method ReadAll(stream: StreamKey, start: int, limit: int, begin: int, finish: int) returns (all: seq<Record>)
      requires Valid() && AllPassed(encode, Of(rows, stream)) && begin <= finish
      requires IsValidStream(stream) && stream.kind != TaskStatus && 0 <= start <= MaximumSequence && 1 <= limit <= 1000
      ensures Ascending(all)
      ensures forall i | 0 <= i < |all| ::
        all[i].sequence in Live(Of(rows, stream), start, begin) && all[i] == Of(rows, stream)[all[i].sequence]
      ensures forall n | n in Live(Of(rows, stream), start, finish) :: Has(all, n)
    {
      all := [];
      ghost var records := Of(rows, stream);
      var cursor, now := start, begin;
      while true
        invariant start <= cursor <= MaximumSequence && begin <= now <= finish
        invariant Collected(records, start, cursor, begin, finish, all)
        decreases Live(records, cursor, begin)
      {
        var time :| now <= time <= finish;
        now := time;
        var outcome, body := ReadPage(stream, cursor, limit, now);
        var page := outcome.value;
        if page == [] {
          assert forall n | n in Live(records, start, finish) && n > cursor :: n in Live(records, cursor, now);
          break;
        }
        CollectPage(records, start, cursor, begin, now, finish, all, page);
        all := all + page;
        cursor := page[|page| - 1].sequence;
      }
    }
  }
}
