/** The paged index of one seller or buyer: fixed-size pages, an entry count, and the flat vector written by
    deployments that predate paging (`storage.rs`). */
module Paging {
  import opened Types

  const PAGE_SIZE := 20

  /** `page_count`: ceiling division. */
  function PageCount(total: nat): nat {
    (total + PAGE_SIZE - 1) / PAGE_SIZE
  }

  function Min(a: nat, b: nat): nat {
    if a < b then a else b
  }

  /** The window of at most `limit` entries from offset `start`. */
  function Window<T>(ids: seq<T>, start: nat, limit: nat): seq<T> {
    if start >= |ids| then [] else ids[start..Min(start + limit, |ids|)]
  }

  /** All pages but the last are full, the last one holds the rest, and no stale page is left behind it. */
  ghost predicate PagesOk(pages: map<nat, seq<u64>>, count: nat) {
    && (forall p :: p in pages <==> 0 <= p < PageCount(count))
    && (forall p :: 0 <= p < PageCount(count) ==> |pages[p]| == Min(PAGE_SIZE, count - PAGE_SIZE * p))
  }

  ghost function Flatten(pages: map<nat, seq<u64>>, count: nat): (ids: seq<u64>)
    requires PagesOk(pages, count)
    ensures |ids| == count
    ensures forall k :: 0 <= k < count ==> ids[k] == pages[k / PAGE_SIZE][k % PAGE_SIZE]
  {
    seq(count, k requires 0 <= k < count => pages[k / PAGE_SIZE][k % PAGE_SIZE])
  }

  /** Pushing onto the tail page appends to the flattened sequence. */
  lemma PushFlat(pages: map<nat, seq<u64>>, count: nat, id: u64)
    requires PagesOk(pages, count)
    ensures var tail := count / PAGE_SIZE;
            var page := if tail in pages then pages[tail] else [];
            && |page| == count % PAGE_SIZE
            && PagesOk(pages[tail := page + [id]], count + 1)
            && Flatten(pages[tail := page + [id]], count + 1) == Flatten(pages, count) + [id]
  {
    var tail := count / PAGE_SIZE;
    var page := if tail in pages then pages[tail] else [];
    var pushed := pages[tail := page + [id]];
    assert PagesOk(pushed, count + 1);
    forall k | 0 <= k < count ensures Flatten(pushed, count + 1)[k] == Flatten(pages, count)[k] {
      Locate(k, count);
    }
  }

  lemma SliceJoin<T>(s: seq<T>, a: nat, b: nat, c: nat)
    requires a <= b <= c <= |s|
    ensures s[a..b] + s[b..c] == s[a..c]
  {
  }

  /** A window holds the entries from its offset on, as many as asked for or as there are. */
  lemma WindowHolds<T>(ids: seq<T>, start: nat, limit: nat)
    ensures |Window(ids, start, limit)|
         == if |ids| <= start then 0 else if |ids| - start < limit then |ids| - start else limit
    ensures forall i :: 0 <= i < |Window(ids, start, limit)| ==> Window(ids, start, limit)[i] == ids[start + i]
  {
  }

  /** A window continues the prefix before it, and is empty only at the end. */
  lemma WindowExtends<T>(ids: seq<T>, start: nat, limit: nat)
    requires start <= |ids| && limit > 0
    ensures var w := Window(ids, start, limit);
            && start + |w| <= |ids| && ids[..start] + w == ids[..start + |w|]
            && (w == [] <==> start == |ids|)
  {
  }

  class PagedIndex {
    var pages: map<nat, seq<u64>>
    var count: u32
    var legacy: Option<seq<u64>>

    ghost predicate Valid()
      reads this
    {
      PagesOk(pages, count) && (legacy.Some? ==> |legacy.value| <= MAX_U32)
    }

    /** The paged entries, in order. */
    ghost function Entries(): seq<u64>
      requires Valid()
      reads this
    {
      Flatten(pages, count)
    }

    function Legacy(): seq<u64>
      reads this
    {
      if legacy.Some? then legacy.value else []
    }

    /** What the index holds: the flat vector speaks only while there are no paged entries. */
    ghost function Contents(): seq<u64>
      requires Valid()
      reads this
    {
      if count == 0 then Legacy() else Entries()
    }

    constructor (flat: Option<seq<u64>>)
      requires flat.Some? ==> |flat.value| <= MAX_U32
      ensures Valid() && legacy == flat && count == 0
      ensures Contents() == if flat.Some? then flat.value else []
    {
      pages, count, legacy := map[], 0, flat;
    }

    /** `clear_pages`. */
    method ClearPages()
      requires Valid()
      modifies `pages
      ensures pages == map[]
    {
      if count == 0 {
        assert pages.Keys == {};
        return;
      }
      var p := 0;
      while p < PageCount(count)
        invariant 0 <= p <= PageCount(count)
        invariant forall q :: q in pages <==> p <= q < PageCount(count)
      {
        pages := pages - {p};
        p := p + 1;
      }
      assert pages.Keys == {};
    }

    /** `write_pages`. */
    method WritePages(ids: seq<u64>)
      requires pages == map[] && |ids| <= MAX_U32 && (legacy.Some? ==> |legacy.value| <= MAX_U32)
      modifies `pages, `count
      ensures Valid() && count == |ids| && Entries() == ids && legacy == old(legacy)
    {
      var i, p := 0, 0;
      while i < |ids|
        invariant 0 <= i <= |ids| && i == Min(PAGE_SIZE * p, |ids|)
        invariant p <= PageCount(|ids|)
        invariant forall q :: q in pages <==> 0 <= q < p
        invariant forall q :: 0 <= q < p ==> pages[q] == ids[PAGE_SIZE * q..Min(PAGE_SIZE * q + PAGE_SIZE, |ids|)]
        decreases |ids| - i
      {
        var page: seq<u64> := [];
        var inPage := 0;
        while inPage < PAGE_SIZE && i < |ids|
          invariant 0 <= inPage <= PAGE_SIZE && i == PAGE_SIZE * p + inPage <= |ids|
          invariant page == ids[PAGE_SIZE * p..i]
        {
          page := page + [ids[i]];
          i := i + 1;
          inPage := inPage + 1;
        }
        pages := pages[p := page];
        p := p + 1;
      }
      count := |ids|;
      assert p == PageCount(count);
      forall k | 0 <= k < count ensures pages[k / PAGE_SIZE][k % PAGE_SIZE] == ids[k] {
        Locate(k, count);
      }
    }

    /** `write_vendor_escrow_index` and `write_buyer_escrow_index`: a rewrite leaves no stale tail page. Reading back
        yields the written ids, with one exception: an empty list does not replace a non-empty flat vector. */
    method Write(ids: seq<u64>)
      requires Valid() && |ids| <= MAX_U32
      modifies this
      ensures Valid() && count == |ids| && legacy == old(legacy)
      ensures Contents() == if ids == [] then Legacy() else ids
      ensures Contents() == ids <==> ids != [] || Legacy() == []
    {
      ClearPages();
      WritePages(ids);
    }

    /** `migrate_legacy_vendor_index` and `migrate_legacy_buyer_index`. */
    method MigrateLegacy()
      requires Valid()
      modifies this
      ensures Valid() && Contents() == old(Contents())
      ensures count == |Contents()| && (old(count) == 0 ==> legacy == None)
    {
      if count != 0 {
        return;
      }
      if legacy.None? {
        return;
      }
      Write(legacy.value);
      legacy := None;
    }

    /** `append_vendor_escrow_index` and `append_buyer_escrow_index`: touches the tail page only. Fails when the count
        would not fit a u32. */
    method Append(id: u64) returns (r: Check)
      requires Valid()
      modifies this
      ensures Valid()
      ensures r.Pass? <==> |old(Contents())| < MAX_U32
      ensures Contents() == if r.Pass? then old(Contents()) + [id] else old(Contents())
    {
      MigrateLegacy();
      if count + 1 > MAX_U32 {
        return Fail(ArithmeticOverflow);
      }
      PushFlat(pages, count, id);
      var tail := count / PAGE_SIZE;
      var page := if tail in pages then pages[tail] else [];
      pages := pages[tail := page + [id]];
      count := count + 1;
      r := Pass;
    }

    /** `read_vendor_escrow_index` and `read_buyer_escrow_index`. */
    method ReadAll() returns (ids: seq<u64>)
      requires Valid()
      ensures ids == Contents()
    {
      if count == 0 {
        return Legacy();
      }
      ids := [];
      var p := 0;
      while p < PageCount(count)
        invariant 0 <= p <= PageCount(count)
        invariant ids == Entries()[..Min(PAGE_SIZE * p, count)]
      {
        if p in pages {
          for k := 0 to |pages[p]|
            invariant ids == Entries()[..PAGE_SIZE * p + k]
          {
            assert (PAGE_SIZE * p + k) / PAGE_SIZE == p && (PAGE_SIZE * p + k) % PAGE_SIZE == k;
            ids := ids + [pages[p][k]];
          }
        }
        p := p + 1;
      }
    }

    /** The flat vector's window. */
    method ReadLegacyPage(start: u64, limit: u64) returns (ids: seq<u64>)
      requires |Legacy()| <= MAX_U32
      ensures ids == Window(Legacy(), start, limit)
    {
      ids := [];
      var end := Min(Min(start + limit, MAX_U64), |Legacy()|);
      if start >= end {
        return;
      }
      for i := start to end
        invariant ids == Legacy()[start..i]
      {
        ids := ids + [Legacy()[i]];
      }
    }

    /** The part of a window that lies in one page. */
    method ReadWithin(p: nat, i: nat, end: nat) returns (ids: seq<u64>)
      requires Valid() && PAGE_SIZE * p <= i <= end <= Min(PAGE_SIZE * p + PAGE_SIZE, count) && p < PageCount(count)
      ensures ids == Entries()[i..end]
    {
      ids := [];
      for j := i to end
        invariant ids == Entries()[i..j]
      {
        assert j / PAGE_SIZE == p;
        ids := ids + [pages[p][j % PAGE_SIZE]];
      }
    }

    /** `read_vendor_escrow_index_page`: only the pages that overlap the window are read. */
    method ReadPage(start: u64, limit: u64) returns (ids: seq<u64>)
      requires Valid()
      ensures ids == Window(Contents(), start, limit)
    {
      if count == 0 {
        ids := ReadLegacyPage(start, limit);
        return;
      }
      ids := [];
      if start >= count || limit == 0 {
        return;
      }
      var end := Min(Min(start + limit, MAX_U64), count);
      var i := start;
      while i < end
        invariant start <= i <= end && ids == Entries()[start..i]
        decreases end - i
      {
        var p := i / PAGE_SIZE;
        Locate(i, count);
        var pageEnd := (p + 1) * PAGE_SIZE;
        var part := ReadWithin(p, i, Min(end, pageEnd));
        SliceJoin(Entries(), start, i, Min(end, pageEnd));
        ids := ids + part;
        i := Min(end, pageEnd);
      }
    }

    /** Walking the index as its documentation says, advancing by the length of each page until one comes back empty,
        rebuilds it. */
    method Walk(limit: u64) returns (ids: seq<u64>)
      requires Valid() && limit > 0
      ensures ids == Contents()
    {
      ids := [];
      var start: u64 := 0;
      var more := true;
      while more
        invariant start == |ids| <= |Contents()| <= MAX_U32 && ids == Contents()[..start]
        invariant !more ==> start == |Contents()|
        decreases more, |Contents()| - start
      {
        var page := ReadPage(start, limit);
        WindowExtends(Contents(), start, limit);
        ids := ids + page;
        start := start + |page|;
        more := page != [];
      }
    }

    /** How basket creation lists its id: read everything, push, rewrite, then append once more. */
    method AppendBasket(id: u64) returns (r: Check)
      requires Valid()
      modifies this
      ensures Valid()
      ensures r.Pass? <==> |old(Contents())| + 1 < MAX_U32
      ensures r.Pass? ==> Contents() == old(Contents()) + [id, id]
    {
      var ids := ReadAll();
      if |ids| + 1 > MAX_U32 {
        return Fail(ArithmeticOverflow);
      }
      Write(ids + [id]);
      r := Append(id);
      assert ids + [id] + [id] == ids + [id, id];
    }
  }

  lemma Locate(k: nat, total: nat)
    requires k < total
    ensures k / PAGE_SIZE < PageCount(total) && PAGE_SIZE * (k / PAGE_SIZE) + k % PAGE_SIZE == k
    ensures PAGE_SIZE * (k / PAGE_SIZE) <= k < Min(PAGE_SIZE * (k / PAGE_SIZE) + PAGE_SIZE, total)
  {
  }
}
