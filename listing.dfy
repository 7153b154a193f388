/**
 * The cursor operations the listing endpoints of `backend/server.py` chain on
 * a collection: a filter `find({key: value})`, `sort(field, -1)`, `skip`,
 * `limit` and `to_list`, stated by their plain meaning over a sequence of
 * documents.
 */
module Listing {
  import opened Wrappers
  import opened Documents
  import opened Database

  /** The fields of a datetime, most significant first. */
  function Fields(dt: DateTime): (r: seq<nat>)
    ensures |r| == 7
  {
    [dt.year, dt.month, dt.day, dt.hour, dt.minute, dt.second, dt.microsecond]
  }

  /** Lexicographic `<=` on field lists of one length: the order of datetimes. */
  predicate LexLe(a: seq<nat>, b: seq<nat>)
    requires |a| == |b|
  {
    |a| == 0 || a[0] < b[0] || (a[0] == b[0] && LexLe(a[1..], b[1..]))
  }

  lemma {:induction false} LexLeTotal(a: seq<nat>, b: seq<nat>)
    requires |a| == |b|
    ensures LexLe(a, b) || LexLe(b, a)
  {
    if |a| > 0 && a[0] == b[0] {
      LexLeTotal(a[1..], b[1..]);
    }
  }

  lemma {:induction false} LexLeTransitive(a: seq<nat>, b: seq<nat>, c: seq<nat>)
    requires |a| == |b| == |c| && LexLe(a, b) && LexLe(b, c)
    ensures LexLe(a, c)
  {
    if |a| > 0 && a[0] == b[0] == c[0] {
      LexLeTransitive(a[1..], b[1..], c[1..]);
    }
  }

  /** Two field lists that are each `<=` the other are equal. */
  lemma {:induction false} LexLeAntisymmetric(a: seq<nat>, b: seq<nat>)
    requires |a| == |b| && LexLe(a, b) && LexLe(b, a)
    ensures a == b
  {
    if |a| > 0 {
      LexLeAntisymmetric(a[1..], b[1..]);
      assert a == [a[0]] + a[1..] && b == [b[0]] + b[1..];
    }
  }

  /** The datetime a document holds under `field`, if any. */
  function DateOf(doc: Record, field: string): (r: Option<DateTime>)
    ensures r.Some? <==> field in doc && doc[field].PyDateTime?
  {
    if field in doc && doc[field].PyDateTime? then Some(doc[field].dt) else None
  }

  /**
   * `a` may be listed before `b` by `sort(field, -1)`: the later date first,
   * and documents without a datetime under `field` after all those with one.
   */
  predicate ComesFirst(a: Record, b: Record, field: string) {
    match (DateOf(a, field), DateOf(b, field))
    case (Some(x), Some(y)) => LexLe(Fields(y), Fields(x))
    case (Some(_), None) => true
    case (None, Some(_)) => false
    case (None, None) => true
  }

  lemma ComesFirstTotal(a: Record, b: Record, field: string)
    ensures ComesFirst(a, b, field) || ComesFirst(b, a, field)
  {
    if DateOf(a, field).Some? && DateOf(b, field).Some? {
      LexLeTotal(Fields(DateOf(a, field).value), Fields(DateOf(b, field).value));
    }
  }

  lemma ComesFirstTransitive(a: Record, b: Record, c: Record, field: string)
    requires ComesFirst(a, b, field) && ComesFirst(b, c, field)
    ensures ComesFirst(a, c, field)
  {
    if DateOf(a, field).Some? && DateOf(b, field).Some? && DateOf(c, field).Some? {
      LexLeTransitive(Fields(DateOf(c, field).value), Fields(DateOf(b, field).value), Fields(DateOf(a, field).value));
    }
  }

  /**
   * Two documents that may each be listed before the other hold the same
   * datetime, or neither holds one: only such ties are left in an order the
   * database does not fix.
   */
  lemma TiesShareDate(a: Record, b: Record, field: string)
    requires ComesFirst(a, b, field) && ComesFirst(b, a, field)
    ensures DateOf(a, field) == DateOf(b, field)
  {
    if DateOf(a, field).Some? && DateOf(b, field).Some? {
      var x := DateOf(a, field).value;
      var y := DateOf(b, field).value;
      LexLeAntisymmetric(Fields(x), Fields(y));
      assert x.year == y.year && x.month == y.month && x.day == y.day && x.hour == y.hour by {
        assert Fields(x)[0] == Fields(y)[0] && Fields(x)[1] == Fields(y)[1];
        assert Fields(x)[2] == Fields(y)[2] && Fields(x)[3] == Fields(y)[3];
      }
      assert x.minute == y.minute && x.second == y.second && x.microsecond == y.microsecond by {
        assert Fields(x)[4] == Fields(y)[4] && Fields(x)[5] == Fields(y)[5] && Fields(x)[6] == Fields(y)[6];
      }
    }
  }

  /** Every document is listed no later than every one after it. */
  predicate SortedDesc(s: seq<Record>, field: string) {
    forall i, j | 0 <= i < j < |s| :: ComesFirst(s[i], s[j], field)
  }

  /** A document listed no later than every one of a sorted listing can head it. */
  lemma PrependSorted(x: Record, s: seq<Record>, field: string)
    requires SortedDesc(s, field)
    requires forall y | y in s :: ComesFirst(x, y, field)
    ensures SortedDesc([x] + s, field)
  {
    var t := [x] + s;
    forall i, j | 0 <= i < j < |t| ensures ComesFirst(t[i], t[j], field) {
      assert t[j] == s[j - 1];
      if i > 0 {
        assert t[i] == s[i - 1];
      }
    }
  }

  /** What comes no later than the head of a sorted listing comes no later than all of it. */
  lemma AheadOfHead(x: Record, s: seq<Record>, field: string)
    requires SortedDesc(s, field) && |s| > 0 && ComesFirst(x, s[0], field)
    ensures forall y | y in s :: ComesFirst(x, y, field)
  {
    forall y | y in s ensures ComesFirst(x, y, field) {
      var j :| 0 <= j < |s| && s[j] == y;
      if j > 0 {
        ComesFirstTransitive(x, s[0], s[j], field);
      }
    }
  }

  /** The head of a sorted listing comes no later than anything drawn from its tail or a later document. */
  lemma HeadAhead(doc: Record, s: seq<Record>, rest: seq<Record>, field: string)
    requires SortedDesc(s, field) && |s| > 0 && !ComesFirst(doc, s[0], field)
    requires multiset(rest) == multiset(s[1..]) + multiset{doc}
    ensures forall x | x in rest :: ComesFirst(s[0], x, field)
  {
    ComesFirstTotal(doc, s[0], field);
    forall x | x in rest ensures ComesFirst(s[0], x, field) {
      assert x in multiset(rest);
      if x != doc {
        assert x in multiset(s[1..]);
        var k :| 0 <= k < |s[1..]| && s[1..][k] == x;
        assert s[k + 1] == x;
      }
    }
  }

  /** Inserting one document into a sorted listing, ahead of every document it ties with. */
  function Insert(doc: Record, sorted: seq<Record>, field: string): (r: seq<Record>)
    requires SortedDesc(sorted, field)
    ensures SortedDesc(r, field)
    ensures multiset(r) == multiset(sorted) + multiset{doc}
  {
    if |sorted| == 0 then [doc]
    else if ComesFirst(doc, sorted[0], field) then
      AheadOfHead(doc, sorted, field);
      PrependSorted(doc, sorted, field);
      [doc] + sorted
    else
      var rest := Insert(doc, sorted[1..], field);
      HeadAhead(doc, sorted, rest, field);
      PrependSorted(sorted[0], rest, field);
      assert sorted == [sorted[0]] + sorted[1..];
      [sorted[0]] + rest
  }

  /** `sort(field, -1)`: a descending, permuted listing of the collection. */
  function SortDesc(records: seq<Record>, field: string): (r: seq<Record>)
    ensures SortedDesc(r, field)
    ensures multiset(r) == multiset(records)
    ensures |r| == |records|
  {
    if |records| == 0 then []
    else
      assert records == [records[0]] + records[1..];
      Insert(records[0], SortDesc(records[1..], field), field)
  }

  /** `skip(offset).limit(limit)`: at most `limit` documents, starting at position `offset`. */
  function Page(s: seq<Record>, offset: nat, limit: nat): (r: seq<Record>)
    ensures |r| <= limit
    ensures |r| == if offset >= |s| then 0 else if |s| - offset < limit then |s| - offset else limit
    ensures forall i | 0 <= i < |r| :: offset + i < |s| && r[i] == s[offset + i]
  {
    var start := if offset < |s| then offset else |s|;
    var end := if offset + limit < |s| then offset + limit else |s|;
    s[start..end]
  }

  /** Consecutive pages put together are the page of their combined size: paging skips and repeats nothing. */
  lemma PagesTile(s: seq<Record>, offset: nat, limit: nat, limit': nat)
    ensures Page(s, offset, limit) + Page(s, offset + limit, limit') == Page(s, offset, limit + limit')
  {
    var a := Page(s, offset, limit);
    var b := Page(s, offset + limit, limit');
    var c := Page(s, offset, limit + limit');
    assert |a + b| == |c|;
    forall i | 0 <= i < |c| ensures (a + b)[i] == c[i] {
      if i >= |a| {
        assert b[i - |a|] == s[offset + limit + (i - |a|)];
      }
    }
  }

  /** `find({key: value})`: the matching documents, in collection order. */
  function Where(records: seq<Record>, key: string, value: Value): (r: seq<Record>)
    ensures |r| <= |records|
    ensures forall d | d in r :: Matches(d, key, value)
    ensures forall d | d in records && Matches(d, key, value) :: d in r
    ensures forall d | d in r :: d in records
    ensures forall d :: multiset(r)[d] == if Matches(d, key, value) then multiset(records)[d] else 0
  {
    if |records| == 0 then []
    else
      var rest := Where(records[1..], key, value);
      assert records == [records[0]] + records[1..];
      assert forall d | d in records :: d == records[0] || d in records[1..];
      if Matches(records[0], key, value) then [records[0]] + rest else rest
  }

  /**
   * The filter keeps collection order: filtering two stretches of a collection
   * and putting the results together is filtering the whole.
   */
  lemma {:induction false} WhereConcat(a: seq<Record>, b: seq<Record>, key: string, value: Value)
    ensures Where(a + b, key, value) == Where(a, key, value) + Where(b, key, value)
  {
    if |a| == 0 {
      assert a + b == b;
    } else {
      var ab := a + b;
      assert ab[0] == a[0] && ab[1..] == a[1..] + b;
      WhereConcat(a[1..], b, key, value);
      var tail := Where(a[1..], key, value) + Where(b, key, value);
      if Matches(a[0], key, value) {
        calc {
          Where(ab, key, value);
          [a[0]] + tail;
          ([a[0]] + Where(a[1..], key, value)) + Where(b, key, value);
        }
      }
    }
  }

  /** `serialize_docs` over a list: each document serialized, length and order kept. */
  function SerializedAll(docs: seq<Record>): (r: seq<Record>)
    ensures |r| == |docs|
    ensures forall i | 0 <= i < |r| :: r[i] == Serialized(docs[i])
  {
    seq(|docs|, i requires 0 <= i < |docs| => Serialized(docs[i]))
  }
}
