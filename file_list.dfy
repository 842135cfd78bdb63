/**
 * The feed synchronizer of src/components/FileListOptimized.js: the in-memory feed (uploads,
 * lastDoc, hasMore, loading), a first page of 20, cursor pagination, a tail listener that
 * front-inserts new documents by id, and the derived type/date filter.
 * Queries are not run here: each fetch result is a parameter.
 */
module FileList {
  import opened Common

  const ItemsPerPage: nat := 20
  const DayMs: int := 24 * 60 * 60 * 1000

  /** The value `useState(true)` gives `isInitialLoad` in the first render. */
  const FirstRenderIsInitialLoad: bool := true

  /** The outcome of one `getDocs` query. */
  datatype Fetch = Fetched(docs: seq<Upload>) | FetchFailed

  datatype ChangeType = Added | Modified | Removed
  datatype Change = Change(changeType: ChangeType, doc: Upload)

  /** `filter.dateRange`: `'all'` or a number of days. */
  datatype DateRange = AllTime | Days(n: int)
  /** `filter.type` (the field `kind` here) is `'all'` or a type name. */
  datatype Filter = Filter(kind: string, dateRange: DateRange)

  const AllTypes := "all"

  // ---------------------------------------------------------------------------------------
  // The feed list

  ghost predicate DistinctIds(s: seq<Upload>)
  {
    forall i, j :: 0 <= i < j < |s| ==> s[i].id != s[j].id
  }

  ghost predicate HasId(s: seq<Upload>, id: string)
  {
    exists i :: 0 <= i < |s| && s[i].id == id
  }

  /** Newest first: of two items with resolved timestamps, the earlier one is not older. */
  ghost predicate SortedNewestFirst(s: seq<Upload>)
  {
    forall i, j :: 0 <= i < j < |s| && s[i].timestamp.Some? && s[j].timestamp.Some? ==>
      s[j].timestamp.value <= s[i].timestamp.value
  }

  ghost predicate NotNewerThan(a: seq<Upload>, b: seq<Upload>)
  {
    forall i, j :: 0 <= i < |a| && 0 <= j < |b| && a[i].timestamp.Some? && b[j].timestamp.Some? ==>
      a[i].timestamp.value <= b[j].timestamp.value
  }

  /** `prev.find(u => u.id === id)`. */
  function FindById(s: seq<Upload>, id: string): (r: Option<Upload>)
    ensures r.Some? <==> HasId(s, id)
    ensures r.Some? ==> r.value in s && r.value.id == id
  {
    if s == [] then None
    else if s[0].id == id then Some(s[0])
    else
      var r := FindById(s[1..], id);
      assert HasId(s[1..], id) ==> HasId(s, id) by {
        if HasId(s[1..], id) {
          var k :| 0 <= k < |s[1..]| && s[1..][k].id == id;
          assert s[k + 1].id == id;
        }
      }
      r
  }

  /** The updater passed to `setUploads` by the tail listener. */
  function InsertIfAbsent(prev: seq<Upload>, u: Upload): seq<Upload>
  {
    if FindById(prev, u.id).Some? then prev else [u] + prev
  }

  /** The updater passed to `setUploads` by `loadMore`. */
  function AppendPage(prev: seq<Upload>, page: seq<Upload>): (r: seq<Upload>)
    ensures |r| == |prev| + |page|
    ensures r[..|prev|] == prev && r[|prev|..] == page
  {
    prev + page
  }

  /** `snapshot.docs[snapshot.docs.length - 1]`: undefined for an empty page. */
  function LastOf(page: seq<Upload>): Option<Upload>
  {
    if |page| == 0 then None else Some(page[|page| - 1])
  }

  /** One change of a tail snapshot: only additions are applied. */
  function ApplyChange(prev: seq<Upload>, c: Change): seq<Upload>
  {
    if c.changeType == Added then InsertIfAbsent(prev, c.doc) else prev
  }

  /** The `forEach` over `snapshot.docChanges()`, in delivery order. */
  function ApplyChanges(prev: seq<Upload>, cs: seq<Change>): seq<Upload>
    decreases |cs|
  {
    if cs == [] then prev else ApplyChange(ApplyChanges(prev, cs[..|cs| - 1]), cs[|cs| - 1])
  }

  /** The whole snapshot callback, given the value the guard reads for `isInitialLoad`. */
  function TailUpdate(prev: seq<Upload>, guardIsInitialLoad: bool, hasPendingWrites: bool,
                      cs: seq<Change>): seq<Upload>
  {
    if !guardIsInitialLoad && !hasPendingWrites then ApplyChanges(prev, cs) else prev
  }

  // ---------------------------------------------------------------------------------------
  // Tail insert

  lemma InsertPresentUnchanged(prev: seq<Upload>, u: Upload)
    requires HasId(prev, u.id)
    ensures InsertIfAbsent(prev, u) == prev
  {
  }

  lemma InsertAbsentAtFront(prev: seq<Upload>, u: Upload)
    requires !HasId(prev, u.id)
    ensures InsertIfAbsent(prev, u)[0] == u
    ensures InsertIfAbsent(prev, u)[1..] == prev
  {
  }

  lemma InsertKeepsDistinct(prev: seq<Upload>, u: Upload)
    requires DistinctIds(prev)
    ensures DistinctIds(InsertIfAbsent(prev, u))
  {
    if !HasId(prev, u.id) {
      var r := [u] + prev;
      forall i, j | 0 <= i < j < |r| ensures r[i].id != r[j].id {
        if i == 0 {
          assert r[j] == prev[j - 1];
        }
      }
    }
  }

  /** Delivering the same added document twice never duplicates it. */
  lemma InsertTwiceIsInsertOnce(prev: seq<Upload>, u: Upload)
    ensures InsertIfAbsent(InsertIfAbsent(prev, u), u) == InsertIfAbsent(prev, u)
  {
    var once := InsertIfAbsent(prev, u);
    assert once[0] == u || once == prev;
    assert HasId(once, u.id);
  }

  lemma {:induction false} ChangesKeepDistinct(prev: seq<Upload>, cs: seq<Change>)
    requires DistinctIds(prev)
    ensures DistinctIds(ApplyChanges(prev, cs))
    decreases |cs|
  {
    if cs != [] {
      ChangesKeepDistinct(prev, cs[..|cs| - 1]);
      if cs[|cs| - 1].changeType == Added {
        InsertKeepsDistinct(ApplyChanges(prev, cs[..|cs| - 1]), cs[|cs| - 1].doc);
      }
    }
  }

  /** The items held before a snapshot stay, in order, at the tail of the list. */
  lemma {:induction false} ChangesKeepOldSuffix(prev: seq<Upload>, cs: seq<Change>)
    ensures |ApplyChanges(prev, cs)| >= |prev|
    ensures ApplyChanges(prev, cs)[|ApplyChanges(prev, cs)| - |prev|..] == prev
    decreases |cs|
  {
    if cs != [] {
      ChangesKeepOldSuffix(prev, cs[..|cs| - 1]);
      var mid := ApplyChanges(prev, cs[..|cs| - 1]);
      var r := ApplyChanges(prev, cs);
      if r != mid {
        assert r == [cs[|cs| - 1].doc] + mid;
        assert r[|r| - |prev|..] == mid[|mid| - |prev|..];
      }
    }
  }

  /** Every listed item was there before or is an added document of the snapshot. */
  lemma {:induction false} ChangesOnlyAddAdded(prev: seq<Upload>, cs: seq<Change>, x: Upload)
    requires x in ApplyChanges(prev, cs)
    ensures x in prev || Change(Added, x) in cs
    decreases |cs|
  {
    if cs != [] {
      var init := cs[..|cs| - 1];
      var last := cs[|cs| - 1];
      if x in ApplyChanges(prev, init) {
        ChangesOnlyAddAdded(prev, init, x);
        if Change(Added, x) in init {
          var k :| 0 <= k < |init| && init[k] == Change(Added, x);
          assert cs[k] == Change(Added, x);
        }
      } else {
        assert x == last.doc && last.changeType == Added;
        assert cs[|cs| - 1] == Change(Added, x);
      }
    }
  }

  /** Modifications and removals never touch the list. */
  lemma {:induction false} OnlyAdditionsMatter(prev: seq<Upload>, cs: seq<Change>)
    requires forall k :: 0 <= k < |cs| ==> cs[k].changeType != Added
    ensures ApplyChanges(prev, cs) == prev
    decreases |cs|
  {
    if cs != [] {
      OnlyAdditionsMatter(prev, cs[..|cs| - 1]);
    }
  }

  /** The handler reacts only when the guard flag is false and no local write is pending. */
  lemma TailGuard(prev: seq<Upload>, guardIsInitialLoad: bool, hasPendingWrites: bool,
                  cs: seq<Change>)
    ensures guardIsInitialLoad || hasPendingWrites ==>
      TailUpdate(prev, guardIsInitialLoad, hasPendingWrites, cs) == prev
    ensures !guardIsInitialLoad && !hasPendingWrites ==>
      TailUpdate(prev, guardIsInitialLoad, hasPendingWrites, cs) == ApplyChanges(prev, cs)
  {
  }

  /**
   * As written, the listener closure was created during the first render, so the guard reads
   * `isInitialLoad == true` forever and every snapshot is ignored: a new upload never appears.
   */
  lemma StaleGuardIgnoresTail(prev: seq<Upload>, u: Upload)
    requires !HasId(prev, u.id)
    ensures u !in TailUpdate(prev, FirstRenderIsInitialLoad, false, [Change(Added, u)])
  {
    assert forall k :: 0 <= k < |prev| ==> prev[k].id != u.id;
  }

  /** With the guard reading the up-to-date flag (false after the first page), it is applied. */
  lemma TailInsertsNewUpload(prev: seq<Upload>, u: Upload)
    requires !HasId(prev, u.id)
    ensures TailUpdate(prev, false, false, [Change(Added, u)]) == [u] + prev
  {
    var cs := [Change(Added, u)];
    assert cs[..0] == [];
    assert ApplyChanges(prev, cs) == ApplyChange(ApplyChanges(prev, []), cs[0]);
    assert FindById(prev, u.id).None?;
  }

  lemma TailKeepsNewestFirst(prev: seq<Upload>, u: Upload)
    requires SortedNewestFirst(prev)
    requires NotNewerThan(prev, [u])
    ensures SortedNewestFirst(InsertIfAbsent(prev, u))
  {
    if !HasId(prev, u.id) {
      var r := [u] + prev;
      forall i, j | 0 <= i < j < |r| && r[i].timestamp.Some? && r[j].timestamp.Some?
        ensures r[j].timestamp.value <= r[i].timestamp.value
      {
        if i == 0 {
          assert r[j] == prev[j - 1];
        } else {
          assert r[i] == prev[i - 1] && r[j] == prev[j - 1];
        }
      }
    }
  }

  // ---------------------------------------------------------------------------------------
  // Pagination

  /** A page strictly after the cursor, with fresh ids, keeps the list free of duplicate ids. */
  lemma AppendKeepsDistinct(prev: seq<Upload>, page: seq<Upload>)
    requires DistinctIds(prev) && DistinctIds(page)
    requires forall k :: 0 <= k < |page| ==> !HasId(prev, page[k].id)
    ensures DistinctIds(AppendPage(prev, page))
  {
    var r := AppendPage(prev, page);
    forall i, j | 0 <= i < j < |r| ensures r[i].id != r[j].id {
      if j >= |prev| {
        assert r[j] == page[j - |prev|];
        if i < |prev| {
          assert r[i] == prev[i];
          assert !HasId(prev, page[j - |prev|].id);
        } else {
          assert r[i] == page[i - |prev|];
        }
      } else {
        assert r[i] == prev[i] && r[j] == prev[j];
      }
    }
  }

  /** An older page appended after a newest-first list keeps it newest-first. */
  lemma AppendKeepsNewestFirst(prev: seq<Upload>, page: seq<Upload>)
    requires SortedNewestFirst(prev) && SortedNewestFirst(page)
    requires NotNewerThan(page, prev)
    ensures SortedNewestFirst(AppendPage(prev, page))
  {
    var r := AppendPage(prev, page);
    forall i, j | 0 <= i < j < |r| && r[i].timestamp.Some? && r[j].timestamp.Some?
      ensures r[j].timestamp.value <= r[i].timestamp.value
    {
      if j >= |prev| {
        assert r[j] == page[j - |prev|];
        if i < |prev| {
          assert r[i] == prev[i];
        } else {
          assert r[i] == page[i - |prev|];
        }
      } else {
        assert r[i] == prev[i] && r[j] == prev[j];
      }
    }
  }

  // ---------------------------------------------------------------------------------------
  // The filter effect

  /** `new Date()` minus `dateRange` days, on an integer millisecond clock. */
  function Cutoff(now: int, days: int): int
  {
    now - days * DayMs
  }

  /** `upload.timestamp?.toDate() > cutoff`: a pending timestamp compares as false. */
  predicate NewerThan(u: Upload, cutoff: int)
  {
    u.timestamp.Some? && u.timestamp.value > cutoff
  }

  function ByType(s: seq<Upload>, t: string): seq<Upload>
  {
    if s == [] then []
    else (if s[0].kind == t then [s[0]] else []) + ByType(s[1..], t)
  }

  function ByDate(s: seq<Upload>, cutoff: int): seq<Upload>
  {
    if s == [] then []
    else (if NewerThan(s[0], cutoff) then [s[0]] else []) + ByDate(s[1..], cutoff)
  }

  /** The filter pipeline of the effect at lines 119-137, over a copy of `uploads`. */
  function ApplyFilter(uploads: seq<Upload>, f: Filter, now: int): seq<Upload>
  {
    var byType := if f.kind != AllTypes then ByType(uploads, f.kind) else uploads;
    if f.dateRange.Days? then ByDate(byType, Cutoff(now, f.dateRange.n)) else byType
  }

  /** What one item must satisfy to be shown. */
  predicate Matches(u: Upload, f: Filter, now: int)
  {
    && (f.kind != AllTypes ==> u.kind == f.kind)
    && (f.dateRange.Days? ==> NewerThan(u, Cutoff(now, f.dateRange.n)))
  }

  /** Reference definition: one pass keeping the matching items. */
  function KeepMatching(s: seq<Upload>, f: Filter, now: int): seq<Upload>
  {
    if s == [] then []
    else (if Matches(s[0], f, now) then [s[0]] else []) + KeepMatching(s[1..], f, now)
  }

  /** `a` is `b` with some items left out, order kept. */
  ghost predicate IsSubsequence(a: seq<Upload>, b: seq<Upload>)
    decreases |b|
  {
    if a == [] then true
    else if b == [] then false
    else (a[0] == b[0] && IsSubsequence(a[1..], b[1..])) || IsSubsequence(a, b[1..])
  }

  lemma {:induction false} ByTypeThenDate(s: seq<Upload>, f: Filter, now: int)
    requires f.kind != AllTypes && f.dateRange.Days?
    ensures ByDate(ByType(s, f.kind), Cutoff(now, f.dateRange.n)) == KeepMatching(s, f, now)
    decreases |s|
  {
    if s != [] {
      ByTypeThenDate(s[1..], f, now);
      var c := Cutoff(now, f.dateRange.n);
      var head := if s[0].kind == f.kind then [s[0]] else [];
      assert ByType(s, f.kind) == head + ByType(s[1..], f.kind);
      ByDateConcat(head, ByType(s[1..], f.kind), c);
    }
  }

  lemma {:induction false} ByDateConcat(a: seq<Upload>, b: seq<Upload>, cutoff: int)
    ensures ByDate(a + b, cutoff) == ByDate(a, cutoff) + ByDate(b, cutoff)
    decreases |a|
  {
    if a != [] {
      assert (a + b)[1..] == a[1..] + b;
      ByDateConcat(a[1..], b, cutoff);
    } else {
      assert a + b == b;
    }
  }

  lemma {:induction false} ByTypeIsKeepMatching(s: seq<Upload>, f: Filter, now: int)
    requires f.kind != AllTypes && f.dateRange.AllTime?
    ensures ByType(s, f.kind) == KeepMatching(s, f, now)
    decreases |s|
  {
    if s != [] {
      ByTypeIsKeepMatching(s[1..], f, now);
    }
  }

  lemma {:induction false} ByDateIsKeepMatching(s: seq<Upload>, f: Filter, now: int)
    requires f.kind == AllTypes && f.dateRange.Days?
    ensures ByDate(s, Cutoff(now, f.dateRange.n)) == KeepMatching(s, f, now)
    decreases |s|
  {
    if s != [] {
      ByDateIsKeepMatching(s[1..], f, now);
    }
  }

  lemma {:induction false} KeepMatchingAll(s: seq<Upload>, f: Filter, now: int)
    requires f.kind == AllTypes && f.dateRange.AllTime?
    ensures KeepMatching(s, f, now) == s
    decreases |s|
  {
    if s != [] {
      KeepMatchingAll(s[1..], f, now);
    }
  }

  /** The two-stage pipeline is the one-pass reference filter. */
  lemma FilterIsKeepMatching(s: seq<Upload>, f: Filter, now: int)
    ensures ApplyFilter(s, f, now) == KeepMatching(s, f, now)
  {
    if f.kind != AllTypes && f.dateRange.Days? {
      ByTypeThenDate(s, f, now);
    } else if f.kind != AllTypes {
      ByTypeIsKeepMatching(s, f, now);
    } else if f.dateRange.Days? {
      ByDateIsKeepMatching(s, f, now);
    } else {
      KeepMatchingAll(s, f, now);
    }
  }

  lemma {:induction false} KeepMatchingMembers(s: seq<Upload>, f: Filter, now: int, x: Upload)
    ensures x in KeepMatching(s, f, now) <==> x in s && Matches(x, f, now)
    decreases |s|
  {
    if s != [] {
      KeepMatchingMembers(s[1..], f, now, x);
      assert s == [s[0]] + s[1..];
    }
  }

  lemma {:induction false} KeepMatchingIsSubsequence(s: seq<Upload>, f: Filter, now: int)
    ensures IsSubsequence(KeepMatching(s, f, now), s)
    decreases |s|
  {
    if s != [] {
      KeepMatchingIsSubsequence(s[1..], f, now);
      var rest := KeepMatching(s[1..], f, now);
      if Matches(s[0], f, now) {
        var r := KeepMatching(s, f, now);
        assert r == [s[0]] + rest;
        assert r[0] == s[0] && r[1..] == rest;
      } else {
        assert KeepMatching(s, f, now) == rest;
      }
    }
  }

  /**
   * The filtered view keeps exactly the items of `uploads` that match the filter (right type
   * unless 'all'; timestamp strictly after the cutoff unless 'all', pending ones dropped), in
   * their order.
   */
  lemma FilterSpec(uploads: seq<Upload>, f: Filter, now: int)
    ensures IsSubsequence(ApplyFilter(uploads, f, now), uploads)
    ensures forall x :: x in ApplyFilter(uploads, f, now) <==> x in uploads && Matches(x, f, now)
  {
    FilterIsKeepMatching(uploads, f, now);
    KeepMatchingIsSubsequence(uploads, f, now);
    forall x ensures x in ApplyFilter(uploads, f, now) <==> x in uploads && Matches(x, f, now) {
      KeepMatchingMembers(uploads, f, now, x);
    }
  }

  // ---------------------------------------------------------------------------------------
  // The component state

  class Feed {
    var uploads: seq<Upload>
    var filteredUploads: seq<Upload>
    var lastDoc: Option<Upload>
    var loading: bool
    var hasMore: bool
    var isInitialLoad: bool
    /** Whether `setupNewUploadsListener` has subscribed the tail listener. */
    var listening: bool

    /** The cursor is always a listed document; the listener runs once the first page is in. */
    ghost predicate Valid()
      reads this
    {
      && (lastDoc.Some? ==> lastDoc.value in uploads)
      && (listening <==> !isInitialLoad)
    }

    constructor ()
      ensures Valid()
      ensures uploads == [] && filteredUploads == [] && lastDoc == None
      ensures !loading && hasMore && isInitialLoad && !listening
    {
      uploads, filteredUploads, lastDoc := [], [], None;
      loading, hasMore, isInitialLoad, listening := false, true, true, false;
    }

    /** `loadInitialData` up to its `await`. */
    method BeginInitialLoad()
      requires Valid()
      modifies this`loading
      ensures Valid() && loading
    {
      loading := true;
    }

    /**
     * `loadInitialData` after `getDocs`: the list becomes the page, the cursor its last doc,
     * `hasMore` whether it was full, and the tail listener is set up. A failed read changes
     * nothing but `loading`.
     */
    method FinishInitialLoad(result: Fetch)
      requires Valid()
      modifies this
      ensures Valid() && !loading
      ensures filteredUploads == old(filteredUploads)
      ensures result.Fetched? ==>
        && uploads == result.docs
        && lastDoc == LastOf(result.docs)
        && hasMore == (|result.docs| == ItemsPerPage)
        && !isInitialLoad && listening
      ensures result.FetchFailed? ==>
        && uploads == old(uploads) && lastDoc == old(lastDoc) && hasMore == old(hasMore)
        && isInitialLoad == old(isInitialLoad) && listening == old(listening)
    {
      if result.Fetched? {
        var data := result.docs;
        uploads := data;
        lastDoc := LastOf(data);
        hasMore := |data| == ItemsPerPage;
        isInitialLoad := false;
        listening := true;
      }
      loading := false;
    }

    /**
     * `loadMore` up to its `await`: a no-op without a cursor, when exhausted or while a fetch
     * is in flight; otherwise marks loading and returns the cursor to read after.
     */
    method BeginLoadMore() returns (cursor: Option<Upload>)
      requires Valid()
      modifies this`loading
      ensures Valid()
      ensures old(lastDoc).None? || !old(hasMore) || old(loading) ==>
        cursor.None? && loading == old(loading)
      ensures old(lastDoc).Some? && old(hasMore) && !old(loading) ==>
        cursor == old(lastDoc) && loading
    {
      if lastDoc.None? || !hasMore || loading {
        return None;
      }
      loading := true;
      cursor := lastDoc;
    }

    /**
     * `loadMore` after `getDocs`: the page goes after every item already listed, and the
     * cursor and `hasMore` follow this page. A failed read changes nothing but `loading`.
     */
    method FinishLoadMore(result: Fetch)
      requires Valid()
      modifies this
      ensures Valid() && !loading
      ensures filteredUploads == old(filteredUploads)
      ensures isInitialLoad == old(isInitialLoad) && listening == old(listening)
      ensures result.Fetched? ==>
        && uploads == AppendPage(old(uploads), result.docs)
        && lastDoc == LastOf(result.docs)
        && hasMore == (|result.docs| == ItemsPerPage)
      ensures result.FetchFailed? ==>
        uploads == old(uploads) && lastDoc == old(lastDoc) && hasMore == old(hasMore)
    {
      if result.Fetched? {
        var data := result.docs;
        var prev := uploads;
        uploads := AppendPage(prev, data);
        lastDoc := LastOf(data);
        if lastDoc.Some? {
          assert uploads[|uploads| - 1] == data[|data| - 1];
        }
        hasMore := |data| == ItemsPerPage;
      }
      loading := false;
    }

    /**
     * The tail listener's snapshot callback. `guardIsInitialLoad` is the value its closure
     * reads for `isInitialLoad`; nothing happens before the listener is subscribed.
     */
    method OnTailSnapshot(guardIsInitialLoad: bool, hasPendingWrites: bool, changes: seq<Change>)
      requires Valid()
      modifies this`uploads
      ensures Valid()
      ensures listening ==>
        uploads == TailUpdate(old(uploads), guardIsInitialLoad, hasPendingWrites, changes)
      ensures !listening ==> uploads == old(uploads)
    {
      if !listening || guardIsInitialLoad || hasPendingWrites {
        return;
      }
      var i := 0;
      while i < |changes|
        invariant 0 <= i <= |changes|
        invariant uploads == ApplyChanges(old(uploads), changes[..i])
        invariant lastDoc.Some? ==> lastDoc.value in uploads
      {
        var change := changes[i];
        if change.changeType == Added {
          var newUpload := change.doc;
          var found := FindById(uploads, newUpload.id);
          if found.None? {
            uploads := [newUpload] + uploads;
          }
        }
        assert changes[..i + 1][..i] == changes[..i];
        i := i + 1;
      }
      assert changes[..|changes|] == changes;
    }

    /** The filter effect: recomputes the view from a copy of `uploads`, which it leaves alone. */
    method RefreshFilter(f: Filter, now: int)
      requires Valid()
      modifies this`filteredUploads
      ensures Valid()
      ensures filteredUploads == ApplyFilter(uploads, f, now)
    {
      filteredUploads := ApplyFilter(uploads, f, now);
    }
  }

  /** Before the first page there is no cursor, so `loadMore` cannot fetch. */
  method LoadMoreBeforeFirstPageIsNoOp()
  {
    var feed := new Feed();
    var cursor := feed.BeginLoadMore();
    assert cursor.None? && !feed.loading;
  }

  /**
   * A full first page of 20, then an older page of 5: the list has the 25 items in order, the
   * feed is exhausted, and a further `loadMore` does not fetch.
   */
  method TwoPageScenario(first: seq<Upload>, second: seq<Upload>)
    requires |first| == ItemsPerPage && |second| == 5
  {
    var feed := new Feed();
    feed.BeginInitialLoad();
    feed.FinishInitialLoad(Fetched(first));
    assert feed.hasMore && feed.lastDoc == Some(first[19]);
    var cursor := feed.BeginLoadMore();
    assert cursor == Some(first[19]);
    feed.FinishLoadMore(Fetched(second));
    assert feed.uploads == first + second && |feed.uploads| == 25;
    assert !feed.hasMore;
    cursor := feed.BeginLoadMore();
    assert cursor.None?;
  }
}
