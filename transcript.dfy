/** The message snapshot handler (src/App.jsx:42-45): the documents of a
    snapshot, sorted ascending by `timestamp` with the comparator
    `a.timestamp - b.timestamp`, replace the shown transcript, unless the
    snapshot is empty. `Array.prototype.sort` is stable, so documents with equal
    timestamps keep their snapshot order. */
module Transcript {

  /** `'user'` or `'eilo'`. */
  datatype Role = User | Eilo

  /** A stored chat message document: `{role, text, timestamp}`. */
  datatype Message = Message(role: Role, text: string, timestamp: int)

  predicate SortedByTimestamp(s: seq<Message>)
  {
    forall i, j :: 0 <= i < j < |s| ==> s[i].timestamp <= s[j].timestamp
  }

  /** The messages of `s` whose timestamp is `t`, in their order in `s`. */
  function WithTimestamp(s: seq<Message>, t: int): (r: seq<Message>)
    ensures |r| <= |s|
  {
    if s == [] then []
    else if s[0].timestamp == t then [s[0]] + WithTimestamp(s[1..], t)
    else WithTimestamp(s[1..], t)
  }

  /** Places `m` before the first element of `s` with a timestamp not below
      its own. */
  function Insert(m: Message, s: seq<Message>): (r: seq<Message>)
    requires SortedByTimestamp(s)
    ensures SortedByTimestamp(r)
    ensures multiset(r) == multiset(s) + multiset{m}
    ensures |r| == |s| + 1 && (r[0] == m || (s != [] && r[0] == s[0]))
  {
    if s == [] || m.timestamp <= s[0].timestamp then [m] + s
    else
      var rest := Insert(m, s[1..]);
      assert s == [s[0]] + s[1..];
      [s[0]] + rest
  }

  /** `docs.sort((a, b) => a.timestamp - b.timestamp)`: a permutation of the
      documents, ordered non-decreasing by timestamp. */
  function SortByTimestamp(docs: seq<Message>): (r: seq<Message>)
    ensures SortedByTimestamp(r)
    ensures multiset(r) == multiset(docs)
  {
    if docs == [] then []
    else
      assert docs == [docs[0]] + docs[1..];
      Insert(docs[0], SortByTimestamp(docs[1..]))
  }

  /** The transcript after a snapshot: the sorted snapshot when it holds any
      document, otherwise the current transcript unchanged. */
  function NextTranscript(current: seq<Message>, docs: seq<Message>): (next: seq<Message>)
    ensures |docs| > 0 ==> SortedByTimestamp(next) && multiset(next) == multiset(docs)
    ensures docs == [] ==> next == current
  {
    if |docs| > 0 then SortByTimestamp(docs) else current
  }

  /** Inserting `m` adds it in front of the messages with its timestamp and
      leaves every other timestamp's messages as they were. */
  lemma {:induction false} InsertWithTimestamp(m: Message, s: seq<Message>, t: int)
    requires SortedByTimestamp(s)
    ensures WithTimestamp(Insert(m, s), t)
            == (if m.timestamp == t then [m] else []) + WithTimestamp(s, t)
  {
    if s == [] || m.timestamp <= s[0].timestamp {
      assert ([m] + s)[1..] == s;
    } else {
      var rest := Insert(m, s[1..]);
      assert ([s[0]] + rest)[1..] == rest;
      InsertWithTimestamp(m, s[1..], t);
      if m.timestamp == t {
        assert s[0].timestamp != t;
      }
    }
  }

  /** The sort is stable: for every timestamp, the messages carrying it come
      out in the order they had in the snapshot. */
  lemma {:induction false} SortIsStable(docs: seq<Message>, t: int)
    ensures WithTimestamp(SortByTimestamp(docs), t) == WithTimestamp(docs, t)
  {
    if docs != [] {
      SortIsStable(docs[1..], t);
      InsertWithTimestamp(docs[0], SortByTimestamp(docs[1..]), t);
    }
  }

  /** A sequence with a message at timestamp `t` has a nonempty
      `WithTimestamp(_, t)`. */
  lemma {:induction false} WithTimestampNonEmpty(s: seq<Message>, k: nat)
    requires k < |s|
    ensures WithTimestamp(s, s[k].timestamp) != []
  {
    if k > 0 && s[0].timestamp != s[k].timestamp {
      WithTimestampNonEmpty(s[1..], k - 1);
    }
  }

  /** Every message of `WithTimestamp(s, t)` is a message of `s`. */
  lemma {:induction false} WithTimestampMembers(s: seq<Message>, t: int, k: nat)
    requires k < |WithTimestamp(s, t)|
    ensures WithTimestamp(s, t)[k] in s && WithTimestamp(s, t)[k].timestamp == t
  {
    if s[0].timestamp == t {
      if k > 0 {
        WithTimestampMembers(s[1..], t, k - 1);
      }
    } else {
      WithTimestampMembers(s[1..], t, k);
    }
  }

  /** Sorted order plus per-timestamp order determine a sequence: two sorted
      sequences that agree on the messages of every timestamp are equal. So
      `SortByTimestamp` is the result of every stable ascending sort, whatever
      algorithm the JavaScript engine uses. */
  lemma {:induction false} SortedStableUnique(r1: seq<Message>, r2: seq<Message>)
    requires SortedByTimestamp(r1) && SortedByTimestamp(r2)
    requires forall t :: WithTimestamp(r1, t) == WithTimestamp(r2, t)
    ensures r1 == r2
  {
    if r1 == [] || r2 == [] {
      var s := if r1 == [] then r2 else r1;
      assert s == [] || WithTimestamp(s, s[0].timestamp) != [];
    } else {
      var t1, t2 := r1[0].timestamp, r2[0].timestamp;
      WithTimestampNonEmpty(r1, 0);
      WithTimestampNonEmpty(r2, 0);
      WithTimestampMembers(r2, t1, 0);
      WithTimestampMembers(r1, t2, 0);
      assert t1 == t2;
      assert r1[0] == WithTimestamp(r1, t1)[0] == WithTimestamp(r2, t1)[0] == r2[0];
      forall t
        ensures WithTimestamp(r1[1..], t) == WithTimestamp(r2[1..], t)
      {
        var a, b := WithTimestamp(r1[1..], t), WithTimestamp(r2[1..], t);
        assert WithTimestamp(r1, t) == WithTimestamp(r2, t);
        if t == t1 {
          assert ([r1[0]] + a)[1..] == a && ([r2[0]] + b)[1..] == b;
        }
      }
      SortedStableUnique(r1[1..], r2[1..]);
      assert r1 == [r1[0]] + r1[1..] && r2 == [r2[0]] + r2[1..];
    }
  }

  /** The snapshot handler's result is THE stable ascending sort of the
      snapshot: any sequence that is sorted by timestamp and keeps equal
      timestamps in snapshot order equals it. */
  lemma NextTranscriptIsStableSort(current: seq<Message>, docs: seq<Message>, sorted: seq<Message>)
    requires |docs| > 0
    requires SortedByTimestamp(sorted)
    requires forall t :: WithTimestamp(sorted, t) == WithTimestamp(docs, t)
    ensures NextTranscript(current, docs) == sorted
  {
    forall t
      ensures WithTimestamp(SortByTimestamp(docs), t) == WithTimestamp(sorted, t)
    {
      SortIsStable(docs, t);
    }
    SortedStableUnique(SortByTimestamp(docs), sorted);
  }
}
