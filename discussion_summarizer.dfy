/** The Discord discussion summarizer cog: registering a "<name>-논의" discussion channel against its
    "<name>-최종정리" summary channel, the per-channel message history and processed-id sets kept
    free of duplicates and in timestamp order, posting a summary in 2000-character pieces, clearing a
    channel's history, and the statistics. The LLM call is a parameter. */
module DiscussionSummarizer {
  import opened Wrappers
  import opened TextUtil

  const DiscussionSuffix: string := "-논의"
  const SummarySuffix: string := "-최종정리"

  function DiscussionName(name: string): string {
    name + DiscussionSuffix
  }

  function SummaryName(name: string): string {
    name + SummarySuffix
  }

  /** A message as Discord returns it. */
  datatype Posted = Posted(id: nat, author: string, authorIsBot: bool, content: string, createdAt: int, attachments: seq<string>)

  /** The dict kept in the history (the author's name, and the creation time as its ISO text, which
      orders like the time itself). */
  datatype Record = Record(id: nat, author: string, content: string, timestamp: int, attachments: seq<string>)

  function ToRecord(m: Posted): Record {
    Record(m.id, m.author, m.content, m.createdAt, m.attachments)
  }

  function RecordTime(r: Record): int {
    r.timestamp
  }

  function PostedTime(m: Posted): int {
    m.createdAt
  }

  /** `channel.history(limit=n)`: the newest n messages, newest first. */
  function Recent(messages: seq<Posted>, limit: nat): (r: seq<Posted>)
    ensures |r| <= limit && |r| <= |messages| && r == messages[..|r|]
  {
    if |messages| <= limit then messages else messages[..limit]
  }

  const RegisterLimit: nat := 1000
  const ScanLimit: nat := 500

  // ---------------------------------------------------------------- ordering

  predicate SortedBy<T>(s: seq<T>, key: T -> int) {
    forall i, j :: 0 <= i < j < |s| ==> key(s[i]) <= key(s[j])
  }

  predicate UniqueBy<T>(s: seq<T>, id: T -> nat) {
    forall i, j :: 0 <= i < j < |s| ==> id(s[i]) != id(s[j])
  }

  /** Inserts x after every element with a key not above its own (which keeps the sort stable). */
  function Insert<T(==)>(x: T, s: seq<T>, key: T -> int): (t: seq<T>)
    ensures |t| == |s| + 1
    ensures multiset(t) == multiset(s) + multiset{x}
  {
    if |s| == 0 then [x]
    else if key(x) < key(s[0]) then [x] + s
    else
      assert s == [s[0]] + s[1..];
      [s[0]] + Insert(x, s[1..], key)
  }

  lemma {:induction false} InsertSorted<T(!new)>(x: T, s: seq<T>, key: T -> int)
    requires SortedBy(s, key)
    ensures SortedBy(Insert(x, s, key), key)
  {
    if |s| > 0 && key(x) >= key(s[0]) {
      assert s == [s[0]] + s[1..];
      InsertSorted(x, s[1..], key);
      var rest := Insert(x, s[1..], key);
      forall y | y in rest ensures key(s[0]) <= key(y) {
        assert y in multiset(rest);
        if y != x {
          assert y in multiset(s[1..]);
          var k :| 0 <= k < |s[1..]| && s[1..][k] == y;
          assert s[k + 1] == y;
        }
      }
    }
  }

  lemma {:induction false} InsertUnique<T(!new)>(x: T, s: seq<T>, key: T -> int, id: T -> nat)
    requires UniqueBy(s, id) && forall y :: y in s ==> id(y) != id(x)
    ensures UniqueBy(Insert(x, s, key), id)
  {
    if |s| > 0 && key(x) >= key(s[0]) {
      assert s == [s[0]] + s[1..];
      InsertUnique(x, s[1..], key, id);
      var rest := Insert(x, s[1..], key);
      forall y | y in rest ensures id(y) != id(s[0]) {
        assert y in multiset(rest);
        if y != x {
          assert y in multiset(s[1..]);
          var k :| 0 <= k < |s[1..]| && s[1..][k] == y;
          assert s[k + 1] == y;
        }
      }
    }
  }

  /** Insertion sort of the first n elements; Python's `list.sort(key=...)` on the key. */
  function SortedUpTo<T(==)>(s: seq<T>, key: T -> int, n: nat): (t: seq<T>)
    requires n <= |s|
    ensures |t| == n
    ensures multiset(t) == multiset(s[..n])
  {
    if n == 0 then []
    else
      assert s[..n] == s[..n - 1] + [s[n - 1]];
      Insert(s[n - 1], SortedUpTo(s, key, n - 1), key)
  }

  lemma {:induction false} SortedUpToSorted<T(!new)>(s: seq<T>, key: T -> int, n: nat)
    requires n <= |s|
    ensures SortedBy(SortedUpTo(s, key, n), key)
  {
    if n > 0 {
      SortedUpToSorted(s, key, n - 1);
      InsertSorted(s[n - 1], SortedUpTo(s, key, n - 1), key);
    }
  }

  function Sorted<T(==)>(s: seq<T>, key: T -> int): (t: seq<T>)
    ensures |t| == |s| && multiset(t) == multiset(s)
  {
    assert s[..|s|] == s;
    SortedUpTo(s, key, |s|)
  }

  /** Sorting orders by the key and is a permutation. */
  lemma SortedIsSorted<T(!new)>(s: seq<T>, key: T -> int)
    ensures SortedBy(Sorted(s, key), key) && multiset(Sorted(s, key)) == multiset(s)
  {
    SortedUpToSorted(s, key, |s|);
  }

  /** Sorting keeps ids distinct. */
  lemma {:induction false} SortedUpToUnique<T(!new)>(s: seq<T>, key: T -> int, id: T -> nat, n: nat)
    requires n <= |s| && UniqueBy(s, id)
    ensures UniqueBy(SortedUpTo(s, key, n), id)
  {
    if n > 0 {
      SortedUpToUnique(s, key, id, n - 1);
      var prev := SortedUpTo(s, key, n - 1);
      forall y | y in prev ensures id(y) != id(s[n - 1]) {
        assert y in multiset(s[..n - 1]);
        var k :| 0 <= k < n - 1 && s[..n - 1][k] == y;
        assert s[k] == y;
      }
      InsertUnique(s[n - 1], prev, key, id);
    }
  }

  /** The in-place `sort`: elements inserted one by one into the sorted prefix. */
  method SortBy<T(==, !new)>(s: seq<T>, key: T -> int) returns (r: seq<T>)
    ensures r == Sorted(s, key)
  {
    r := [];
    for n := 0 to |s|
      invariant r == SortedUpTo(s, key, n)
    {
      r := Insert(s[n], r, key);
    }
    assert s[..|s|] == s;
  }

  // ---------------------------------------------------------------- history bookkeeping

  /** A channel's history and processed ids agree: no id twice in the history, and every history id
      is processed. */
  ghost predicate Consistent(h: seq<Record>, p: set<nat>) {
    UniqueBy(h, (r: Record) => r.id) && forall i :: 0 <= i < |h| ==> h[i].id in p
  }

  /** Appends each non-bot message of the first n whose id is not yet processed, marking its id. */
  function CollectUpTo(h: seq<Record>, p: set<nat>, msgs: seq<Posted>, n: nat): (seq<Record>, set<nat>)
    requires n <= |msgs|
  {
    if n == 0 then (h, p)
    else
      var (h1, p1) := CollectUpTo(h, p, msgs, n - 1);
      var m := msgs[n - 1];
      if !m.authorIsBot && m.id !in p1 then (h1 + [ToRecord(m)], p1 + {m.id}) else (h1, p1)
  }

  /** `r` is the record of one of the first n messages, a non-bot one whose id was not processed. */
  ghost predicate CollectedFrom(r: Record, msgs: seq<Posted>, n: nat, p: set<nat>)
    requires n <= |msgs|
  {
    exists k :: 0 <= k < n && r == ToRecord(msgs[k]) && !msgs[k].authorIsBot && msgs[k].id !in p
  }

  /** `x` is the id of one of the first n messages, a non-bot one. */
  ghost predicate PostedId(x: nat, msgs: seq<Posted>, n: nat)
    requires n <= |msgs|
  {
    exists k :: 0 <= k < n && msgs[k].id == x && !msgs[k].authorIsBot
  }

  /** Some record of `h` from index `lo` on carries the id `x`. */
  ghost predicate RecordedFrom(h: seq<Record>, lo: nat, x: nat) {
    exists i :: lo <= i < |h| && h[i].id == x
  }

  /** Collecting keeps the history consistent, only appends (non-bot, unprocessed messages), and
      leaves every non-bot message's id processed. */
  lemma {:induction false} CollectEffect(h: seq<Record>, p: set<nat>, msgs: seq<Posted>, n: nat)
    requires n <= |msgs| && Consistent(h, p)
    ensures var (h1, p1) := CollectUpTo(h, p, msgs, n);
      Consistent(h1, p1) && p <= p1 && |h| <= |h1| && h1[..|h|] == h &&
      (forall i :: |h| <= i < |h1| ==> CollectedFrom(h1[i], msgs, n, p)) &&
      (forall k :: 0 <= k < n && !msgs[k].authorIsBot ==> msgs[k].id in p1)
  {
    if n > 0 {
      CollectEffect(h, p, msgs, n - 1);
      var prev := CollectUpTo(h, p, msgs, n - 1);
      var h1, p1 := prev.0, prev.1;
      var m := msgs[n - 1];
      forall i | |h| <= i < |h1| ensures CollectedFrom(h1[i], msgs, n, p) {
        var k :| 0 <= k < n - 1 && h1[i] == ToRecord(msgs[k]) && !msgs[k].authorIsBot && msgs[k].id !in p;
      }
      if !m.authorIsBot && m.id !in p1 {
        var h2 := h1 + [ToRecord(m)];
        assert CollectUpTo(h, p, msgs, n) == (h2, p1 + {m.id});
        forall i, j | 0 <= i < j < |h2| ensures h2[i].id != h2[j].id {
          if j == |h1| {
            assert h1[i].id in p1;
          }
        }
        assert h2[..|h|] == h1[..|h|];
        forall i | |h| <= i < |h2| ensures CollectedFrom(h2[i], msgs, n, p) {
          if i == |h1| {
            assert h2[i] == ToRecord(msgs[n - 1]);
          } else {
            assert h2[i] == h1[i];
          }
        }
      } else {
        assert CollectUpTo(h, p, msgs, n) == (h1, p1);
      }
    }
  }

  /** Collecting loses no message and marks nothing else: every non-bot message whose id was not
      processed has its id on one of the appended records, and every newly processed id is a
      non-bot message's. */
  lemma {:induction false} CollectComplete(h: seq<Record>, p: set<nat>, msgs: seq<Posted>, n: nat)
    requires n <= |msgs|
    ensures var (h1, p1) := CollectUpTo(h, p, msgs, n);
      |h| <= |h1| &&
      (forall x :: x in p1 ==> x in p || PostedId(x, msgs, n)) &&
      (forall k :: 0 <= k < n && !msgs[k].authorIsBot && msgs[k].id !in p ==> RecordedFrom(h1, |h|, msgs[k].id))
  {
    if n > 0 {
      CollectComplete(h, p, msgs, n - 1);
      var prev := CollectUpTo(h, p, msgs, n - 1);
      var h1, p1 := prev.0, prev.1;
      var m := msgs[n - 1];
      forall x | x in p1 && x !in p ensures PostedId(x, msgs, n) {
        var k :| 0 <= k < n - 1 && msgs[k].id == x && !msgs[k].authorIsBot;
      }
      if !m.authorIsBot && m.id !in p1 {
        var h2 := h1 + [ToRecord(m)];
        assert CollectUpTo(h, p, msgs, n) == (h2, p1 + {m.id});
        assert msgs[n - 1].id == m.id;
        forall k | 0 <= k < n && !msgs[k].authorIsBot && msgs[k].id !in p ensures RecordedFrom(h2, |h|, msgs[k].id) {
          if k == n - 1 {
            assert h2[|h1|].id == m.id;
          } else {
            var i :| |h| <= i < |h1| && h1[i].id == msgs[k].id;
            assert h2[i] == h1[i];
          }
        }
      } else {
        assert CollectUpTo(h, p, msgs, n) == (h1, p1);
        if !m.authorIsBot && m.id !in p {
          var j :| 0 <= j < n - 1 && msgs[j].id == m.id && !msgs[j].authorIsBot;
          assert RecordedFrom(h1, |h|, msgs[j].id);
        }
      }
    }
  }

  function Collect(h: seq<Record>, p: set<nat>, msgs: seq<Posted>): (seq<Record>, set<nat>) {
    CollectUpTo(h, p, msgs, |msgs|)
  }

  /** The register loop on a channel's history and ids. */
  method CollectMessages(h0: seq<Record>, p0: set<nat>, msgs: seq<Posted>) returns (h: seq<Record>, p: set<nat>, count: nat)
    ensures (h, p) == Collect(h0, p0, msgs)
    ensures count == |h| - |h0|
  {
    h, p, count := h0, p0, 0;
    for n := 0 to |msgs|
      invariant (h, p) == CollectUpTo(h0, p0, msgs, n)
      invariant |h0| <= |h| && count == |h| - |h0|
    {
      var m := msgs[n];
      if !m.authorIsBot {
        if m.id !in p {
          h := h + [ToRecord(m)];
          p := p + {m.id};
          count := count + 1;
        }
      }
    }
  }

  /** A permutation of a consistent history is consistent. */
  lemma SortedConsistent(h: seq<Record>, p: set<nat>)
    requires Consistent(h, p)
    ensures Consistent(Sorted(h, RecordTime), p)
  {
    SortedIsSorted(h, RecordTime);
    SortedUpToUnique(h, RecordTime, (r: Record) => r.id, |h|);
    assert h[..|h|] == h;
    var t := Sorted(h, RecordTime);
    forall i | 0 <= i < |t| ensures t[i].id in p {
      assert t[i] in multiset(h);
      var k :| 0 <= k < |h| && h[k] == t[i];
    }
  }

  /** The channel's history after a registration: created empty if absent, the fetched messages
      collected into it, and the whole list sorted by timestamp. */
  function AfterRegister(history: map<string, seq<Record>>, processed: map<string, set<nat>>, d: string, fetched: seq<Posted>): (seq<Record>, set<nat>) {
    var h0 := if d in history then history[d] else [];
    var p0 := if d in history && d in processed then processed[d] else {};
    var (h1, p1) := Collect(h0, p0, fetched);
    (Sorted(h1, RecordTime), p1)
  }

  /** Registration on one channel's history and ids: collect, then sort the whole list. Every
      earlier record stays, every fetched non-bot message whose id was unprocessed is on the new
      history, and the only ids marked are those of fetched non-bot messages. */
  method RegisterHistory(h0: seq<Record>, p0: set<nat>, fetched: seq<Posted>) returns (h: seq<Record>, p: set<nat>, count: nat)
    requires Consistent(h0, p0)
    ensures (h, p) == (Sorted(Collect(h0, p0, fetched).0, RecordTime), Collect(h0, p0, fetched).1)
    ensures Consistent(h, p) && SortedBy(h, RecordTime)
    ensures forall r :: r in h0 ==> r in h
    ensures forall k :: 0 <= k < |fetched| && !fetched[k].authorIsBot && fetched[k].id !in p0 ==> RecordedFrom(h, 0, fetched[k].id)
    ensures forall x :: x in p ==> x in p0 || PostedId(x, fetched, |fetched|)
    ensures |h| == |h0| + count
  {
    CollectEffect(h0, p0, fetched, |fetched|);
    CollectComplete(h0, p0, fetched, |fetched|);
    var h1;
    h1, p, count := CollectMessages(h0, p0, fetched);
    SortedConsistent(h1, p);
    SortedIsSorted(h1, RecordTime);
    h := SortBy(h1, RecordTime);
    forall r | r in h0 ensures r in h {
      var i :| 0 <= i < |h0| && h0[i] == r;
      assert h1[i] == r;
      assert r in multiset(h1);
    }
    forall k | 0 <= k < |fetched| && !fetched[k].authorIsBot && fetched[k].id !in p0 ensures RecordedFrom(h, 0, fetched[k].id) {
      var i :| |h0| <= i < |h1| && h1[i].id == fetched[k].id;
      assert h1[i] in multiset(h);
      var j :| 0 <= j < |h| && h[j] == h1[i];
    }
  }

  // ---------------------------------------------------------------- new messages and the summary

  /** The non-bot messages whose id is not processed, in scan order. */
  function NewMessages(scanned: seq<Posted>, p: set<nat>): (r: seq<Posted>)
    ensures forall m :: m in r <==> m in scanned && !m.authorIsBot && m.id !in p
  {
    if |scanned| == 0 then []
    else
      var m := scanned[|scanned| - 1];
      var rest := NewMessages(scanned[..|scanned| - 1], p);
      assert forall x :: x in scanned <==> x in scanned[..|scanned| - 1] || x == m;
      if !m.authorIsBot && m.id !in p then rest + [m] else rest
  }

  /** A Discord post of the summary: the first piece as an embed, the others as plain messages. */
  datatype Post = Embed(text: string) | Plain(text: string)

  const PieceSize: nat := 2000
  const NothingDecided: string := "아직 최종 결정된 사항이 없습니다"

  predicate Postable(summary: string) {
    summary != "" && !Contains(summary, NothingDecided)
  }

  function Texts(posts: seq<Post>): (ts: seq<string>)
    ensures |ts| == |posts|
  {
    seq(|posts|, i requires 0 <= i < |posts| => posts[i].text)
  }

  /** The posts for a summary. */
  function SummaryPosts(summary: string): seq<Post> {
    if !Postable(summary) then []
    else if |summary| > PieceSize then
      var pieces := Slices(summary, PieceSize);
      seq(|pieces|, i requires 0 <= i < |pieces| => if i == 0 then Embed(pieces[i]) else Plain(pieces[i]))
    else [Embed(summary)]
  }

  /** An empty summary, or one saying nothing is decided yet, posts nothing; otherwise the first post is
      an embed, the rest plain, each at most 2000 characters, and together they are the summary. */
  lemma SummaryPostsReassemble(summary: string)
    ensures !Postable(summary) <==> SummaryPosts(summary) == []
    ensures var posts := SummaryPosts(summary);
      Postable(summary) ==>
        Concat(Texts(posts)) == summary && posts[0].Embed? &&
        (forall i :: 0 < i < |posts| ==> posts[i].Plain?) &&
        (forall i :: 0 <= i < |posts| ==> |posts[i].text| <= PieceSize) &&
        (|summary| <= PieceSize ==> posts == [Embed(summary)])
  {
    if Postable(summary) && |summary| > PieceSize {
      var pieces := Slices(summary, PieceSize);
      SlicesConcat(summary, PieceSize);
      SlicesShape(summary, PieceSize);
      assert Texts(SummaryPosts(summary)) == pieces;
    } else if Postable(summary) {
      assert Texts([Embed(summary)]) == [summary];
      assert Concat([summary]) == summary + Concat([]);
    }
  }

  /** The posting loop over the pieces. */
  method PostSummary(summary: string) returns (posts: seq<Post>)
    ensures posts == SummaryPosts(summary)
  {
    posts := [];
    if summary != "" && !Contains(summary, NothingDecided) {
      if |summary| > PieceSize {
        var pieces := Slices(summary, PieceSize);
        for i := 0 to |pieces|
          invariant posts == seq(i, k requires 0 <= k < i => if k == 0 then Embed(pieces[k]) else Plain(pieces[k]))
        {
          if i == 0 {
            posts := posts + [Embed(pieces[i])];
          } else {
            posts := posts + [Plain(pieces[i])];
          }
        }
      } else {
        posts := [Embed(summary)];
      }
    }
  }

  /** The tail of the command as written (lines 276-278): after the `try`, the loop variables of the
      scan are reused, so the history gets the last new message seen and the processed set the id of
      the last message scanned, whatever it was. */
  function RecordAsWritten(h: seq<Record>, p: set<nat>, scanned: seq<Posted>, newMsgs: seq<Posted>): (seq<Record>, set<nat>)
    requires |scanned| > 0 && |newMsgs| > 0
  {
    (h + [ToRecord(newMsgs[|newMsgs| - 1])], p + {scanned[|scanned| - 1].id})
  }

  /** Two new messages followed by an older bot message: only the older new message reaches the
      history, its id is not marked processed, the bot message's id is, and the newer message is lost. */
  lemma RecordAsWrittenLosesMessages(h: seq<Record>, p: set<nat>, m1: Posted, m2: Posted, bot: Posted)
    requires !m1.authorIsBot && !m2.authorIsBot && bot.authorIsBot
    requires m1.id !in p && m2.id !in p && m1.id != m2.id && bot.id != m1.id && bot.id != m2.id
    ensures var scanned := [m1, m2, bot];
      var r := RecordAsWritten(h, p, scanned, NewMessages(scanned, p));
      r == (h + [ToRecord(m2)], p + {bot.id}) && m1.id !in r.1 && m2.id !in r.1 && !Consistent(r.0, r.1)
  {
    var scanned := [m1, m2, bot];
    assert scanned[..2] == [m1, m2];
    assert [m1, m2][..1] == [m1];
    assert [m1][..0] == [];
    assert NewMessages([], p) == [];
    assert NewMessages([m1], p) == [m1];
    assert NewMessages([m1, m2], p) == [m1, m2];
    assert NewMessages(scanned, p) == [m1, m2];
    var r := RecordAsWritten(h, p, scanned, [m1, m2]);
    assert r.0[|h|].id == m2.id && r.0[|h|].id !in r.1;
  }

  /** The evidently intended tail: every new message, in timestamp order, recorded and marked. */
  function RecordNew(h: seq<Record>, p: set<nat>, newMsgs: seq<Posted>): (seq<Record>, set<nat>) {
    Collect(h, p, Sorted(newMsgs, PostedTime))
  }

  /** Recording the new messages keeps the history consistent and marks every one of them processed. */
  lemma RecordNewEffect(h: seq<Record>, p: set<nat>, scanned: seq<Posted>)
    requires Consistent(h, p)
    ensures var (h1, p1) := RecordNew(h, p, NewMessages(scanned, p));
      |h| <= |h1| && Consistent(h1, p1) && h1[..|h|] == h &&
      forall m :: m in scanned && !m.authorIsBot ==> m.id in p1
  {
    var sorted := Sorted(NewMessages(scanned, p), PostedTime);
    CollectEffect(h, p, sorted, |sorted|);
    var (h1, p1) := RecordNew(h, p, NewMessages(scanned, p));
    forall m | m in scanned && !m.authorIsBot ensures m.id in p1 {
      if m.id !in p {
        assert m in NewMessages(scanned, p);
        assert m in multiset(sorted);
        var k :| 0 <= k < |sorted| && sorted[k] == m;
      }
    }
  }

  /** Recording the new messages loses none of them: each non-bot scanned message whose id was not
      processed has a record appended. */
  lemma RecordNewComplete(h: seq<Record>, p: set<nat>, scanned: seq<Posted>)
    ensures var (h1, p1) := RecordNew(h, p, NewMessages(scanned, p));
      forall m :: m in scanned && !m.authorIsBot && m.id !in p ==> RecordedFrom(h1, |h|, m.id)
  {
    var sorted := Sorted(NewMessages(scanned, p), PostedTime);
    CollectComplete(h, p, sorted, |sorted|);
    var (h1, p1) := RecordNew(h, p, NewMessages(scanned, p));
    forall m | m in scanned && !m.authorIsBot && m.id !in p ensures RecordedFrom(h1, |h|, m.id) {
      assert m in NewMessages(scanned, p);
      assert m in multiset(sorted);
      var k :| 0 <= k < |sorted| && sorted[k] == m;
    }
  }

  /** The LLM reply: raised, or some text. */
  datatype Reply = Raised | Text(text: string)

  datatype RegisterOutcome =
    | DiscussionMissing
    | SummaryMissing
    | LoadFailed          // reading the channel history raised part-way
    | Registered(loaded: nat)

  datatype SummarizeOutcome =
    | NotRegistered       // the "not registered" reply
    | ChannelMissing      // a channel lookup gave None and reading its history raised
    | NoNewMessages
    | Summarized(posts: seq<Post>)

  /** Per-channel statistics: the display name, the history length and the processed-id count. */
  datatype Stat = Stat(name: string, messages: nat, processedIds: nat)

  /** A history with distinct processed ids is no longer than the processed set. */
  lemma {:induction false} HistoryWithinProcessed(h: seq<Record>, p: set<nat>)
    requires Consistent(h, p)
    ensures |h| <= |p|
    decreases |h|
  {
    if |h| > 0 {
      var last := h[|h| - 1];
      var init := h[..|h| - 1];
      assert Consistent(init, p - {last.id}) by {
        forall i | 0 <= i < |init| ensures init[i].id in p - {last.id} {
          assert h[i].id != h[|h| - 1].id;
        }
      }
      HistoryWithinProcessed(init, p - {last.id});
    }
  }

  // ---------------------------------------------------------------- the cog

  /** The cog's maps: history and processed ids per discussion channel, and the channel mappings. */
  class Summarizer {
    var history: map<string, seq<Record>>
    var processed: map<string, set<nat>>
    var mappings: map<string, string>

    ghost predicate Valid()
      reads this
    {
      mappings.Keys <= history.Keys && history.Keys == processed.Keys &&
      forall d :: d in history ==> Consistent(history[d], processed[d])
    }

    constructor ()
      ensures Valid() && history == map[] && processed == map[] && mappings == map[]
    {
      history, processed, mappings := map[], map[], map[];
    }

    /** `register_channel`: `guild` maps each text channel name to its messages, newest first;
        `raiseAt`, when it is less than the number of messages fetched, is the number of messages the
        history read yields before it raises. */
    method RegisterChannel(name: string, guild: map<string, seq<Posted>>, raiseAt: Option<nat>) returns (out: RegisterOutcome)
      requires Valid()
      modifies this
      ensures Valid()
      ensures DiscussionName(name) !in guild ==> out == DiscussionMissing && unchanged(this)
      ensures DiscussionName(name) in guild && SummaryName(name) !in guild ==> out == SummaryMissing && unchanged(this)
      ensures DiscussionName(name) in guild && SummaryName(name) in guild ==>
        var d := DiscussionName(name);
        var fetched := Recent(guild[d], RegisterLimit);
        var h0 := if d in old(history) then old(history)[d] else [];
        var p0 := if d in old(history) then old(processed)[d] else {};
        mappings == old(mappings)[d := SummaryName(name)] &&
        (out.LoadFailed? <==> raiseAt.Some? && raiseAt.value < |fetched|) &&
        (out.LoadFailed? ==> var r := Collect(h0, p0, fetched[..raiseAt.value]);
          history == old(history)[d := r.0] && processed == old(processed)[d := r.1]) &&
        (!out.LoadFailed? ==> var r := AfterRegister(old(history), old(processed), d, fetched);
          out.Registered? && history == old(history)[d := r.0] && processed == old(processed)[d := r.1] &&
          |history[d]| == |h0| + out.loaded &&
          (forall k :: 0 <= k < |fetched| && !fetched[k].authorIsBot && fetched[k].id !in p0 ==> RecordedFrom(history[d], 0, fetched[k].id)))
    {
      var d, s := DiscussionName(name), SummaryName(name);
      if d !in guild {
        return DiscussionMissing;
      }
      if s !in guild {
        return SummaryMissing;
      }
      mappings := mappings[d := s];
      var h0: seq<Record> := if d in history then history[d] else [];
      var p0: set<nat> := if d in history then processed[d] else {};
      var fetched := Recent(guild[d], RegisterLimit);
      if raiseAt.Some? && raiseAt.value < |fetched| {
        // the records appended before the raise stay, unsorted
        var part := fetched[..raiseAt.value];
        CollectEffect(h0, p0, part, |part|);
        var h, p, count := CollectMessages(h0, p0, part);
        history := history[d := h];
        processed := processed[d := p];
        return LoadFailed;
      }
      var h, p, count := RegisterHistory(h0, p0, fetched);
      history := history[d := h];
      processed := processed[d := p];
      out := Registered(count);
    }

    /** `summarize_discussion_result`, with the LLM's reply as a parameter and the evidently intended
        recording of the new messages. */
    method SummarizeDiscussionResult(name: string, guild: map<string, seq<Posted>>, reply: Reply) returns (out: SummarizeOutcome)
      requires Valid()
      modifies this
      ensures Valid() && mappings == old(mappings)
      ensures DiscussionName(name) !in old(mappings) ==> out == NotRegistered && unchanged(this)
      ensures DiscussionName(name) in old(mappings) && (SummaryName(name) !in guild || DiscussionName(name) !in guild) ==>
        out == ChannelMissing && unchanged(this)
      ensures out == NotRegistered <==> DiscussionName(name) !in old(mappings)
      ensures out == ChannelMissing <==>
        DiscussionName(name) in old(mappings) && (SummaryName(name) !in guild || DiscussionName(name) !in guild)
      ensures DiscussionName(name) in old(mappings) && SummaryName(name) in guild && DiscussionName(name) in guild ==>
        var d := DiscussionName(name);
        (out.NoNewMessages? || out.Summarized?) &&
        (out.NoNewMessages? <==> |NewMessages(Recent(guild[d], ScanLimit), old(processed)[d])| == 0)
      ensures out.NoNewMessages? ==> unchanged(this)
      ensures out.Summarized? ==>
        var d := DiscussionName(name);
        var newMsgs := NewMessages(Recent(guild[d], ScanLimit), old(processed)[d]);
        |newMsgs| > 0 &&
        out.posts == (if reply.Text? then SummaryPosts(reply.text) else []) &&
        (history[d], processed[d]) == RecordNew(old(history)[d], old(processed)[d], newMsgs) &&
        history == old(history)[d := history[d]] && processed == old(processed)[d := processed[d]] &&
        (forall m :: m in Recent(guild[d], ScanLimit) && !m.authorIsBot && m.id !in old(processed)[d] ==>
          RecordedFrom(history[d], |old(history)[d]|, m.id))
    {
      var d, s := DiscussionName(name), SummaryName(name);
      if d !in mappings {
        return NotRegistered;
      }
      if s !in guild || d !in guild {
        return ChannelMissing;
      }
      var scanned := Recent(guild[d], ScanLimit);
      var newMsgs := NewMessages(scanned, processed[d]);
      if |newMsgs| == 0 {
        return NoNewMessages;
      }
      var sortedNew := SortBy(newMsgs, PostedTime);
      var posts := [];
      if reply.Text? {
        posts := PostSummary(reply.text);
      }
      RecordNewEffect(history[d], processed[d], scanned);
      RecordNewComplete(history[d], processed[d], scanned);
      var h, p, count := CollectMessages(history[d], processed[d], sortedNew);
      history := history[d := h];
      processed := processed[d := p];
      out := Summarized(posts);
    }

    /** `clear_history`: empties a channel that has a history; otherwise nothing changes. */
    method ClearHistory(name: string) returns (cleared: bool)
      requires Valid()
      modifies this
      ensures Valid() && mappings == old(mappings)
      ensures cleared == (DiscussionName(name) in old(history))
      ensures cleared ==> history == old(history)[DiscussionName(name) := []] && processed == old(processed)[DiscussionName(name) := {}]
      ensures !cleared ==> unchanged(this)
    {
      var d := DiscussionName(name);
      cleared := d in history;
      if cleared {
        history := history[d := []];
        processed := processed[d := {}];
      }
    }

    /** `show_stats`: `None` when no channel is registered; otherwise one entry per mapping. */
    method ShowStats() returns (stats: Option<map<string, Stat>>)
      requires Valid()
      ensures stats.None? <==> mappings == map[]
      ensures stats.Some? ==> stats.value.Keys == mappings.Keys
      ensures stats.Some? ==> forall d :: d in stats.value ==>
        stats.value[d] == Stat(ReplaceAll(d, DiscussionSuffix, ""), |history[d]|, |processed[d]|) &&
        stats.value[d].messages <= stats.value[d].processedIds
    {
      if mappings == map[] {
        return None;
      }
      forall d | d in mappings ensures |history[d]| <= |processed[d]| {
        HistoryWithinProcessed(history[d], processed[d]);
      }
      stats := Some(map d | d in mappings :: Stat(ReplaceAll(d, DiscussionSuffix, ""), |history[d]|, |processed[d]|));
    }
  }
}
