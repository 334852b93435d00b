/** The message thread of one escrow: one key per message and a count, or the single vector of deployments that
    predate paging (`storage.rs`, `queries.rs`). */
module Messages {
  import opened Types
  import opened Paging

  const MAX_MESSAGES_PER_ESCROW := 100
  const MAX_MESSAGES_PER_PAGE := 50

  datatype Message = Message(sender: Address, timestamp: u64, content: string)

  /** One slot per index below `n`, and no others. */
  ghost predicate SlotsOk(slots: map<nat, Message>, n: nat) {
    forall k :: k in slots <==> 0 <= k < n
  }

  lemma SliceGrows<T>(s: seq<T>, a: nat, b: nat)
    requires a <= b < |s|
    ensures s[a..b + 1] == s[a..b] + [s[b]]
  {
  }

  class Thread {
    var slots: map<nat, Message>
    var count: Option<u32>
    var legacy: Option<seq<Message>>

    ghost predicate Valid()
      reads this
    {
      && SlotsOk(slots, if count.Some? then count.value else 0)
      && (legacy.Some? ==> count.None? && |legacy.value| <= MAX_U32)
    }

    /** The thread, oldest message first. */
    ghost function Contents(): (messages: seq<Message>)
      requires Valid()
      reads this
      ensures |messages| <= MAX_U32
    {
      if legacy.Some? then legacy.value
      else if count.None? then []
      else
        var (n, all) := (count.value, slots);
        seq(n, k requires 0 <= k < n && k in all => all[k])
    }

    constructor (flat: Option<seq<Message>>)
      requires flat.Some? ==> |flat.value| <= MAX_U32
      ensures Valid() && Contents() == if flat.Some? then flat.value else []
    {
      slots, count, legacy := map[], None, flat;
    }

    /** `read_message_count`. */
    method Count() returns (n: u32)
      requires Valid()
      ensures n == |Contents()|
    {
      n := if count.Some? then count.value else 0;
      if n == 0 {
        if legacy.Some? {
          return |legacy.value|;
        }
      }
    }

    /** `read_message_at`. */
    method At(index: u32) returns (m: Option<Message>)
      requires Valid()
      ensures m == if index < |Contents()| then Some(Contents()[index]) else None
    {
      if index in slots {
        return Some(slots[index]);
      }
      if legacy.Some? && index < |legacy.value| {
        return Some(legacy.value[index]);
      }
      m := None;
    }

    /** `migrate_legacy_messages`. */
    method MigrateLegacy()
      requires Valid()
      modifies this
      ensures Valid() && Contents() == old(Contents())
      ensures legacy.None? && (count.None? ==> Contents() == [])
    {
      if count.Some? {
        return;
      }
      if legacy.None? {
        return;
      }
      var messages := legacy.value;
      var index: u32 := 0;
      while index < |messages|
        invariant 0 <= index <= |messages| && SlotsOk(slots, index)
        invariant forall k :: 0 <= k < index ==> slots[k] == messages[k]
        invariant legacy == Some(messages) && count == None
      {
        slots := slots[index := messages[index]];
        index := index + 1;
      }
      count := Some(index);
      legacy := None;
    }

    /** `append_message`. A full thread, relocated or not, is left as it was. */
    method Append(m: Message, cap: u32) returns (r: Check)
      requires Valid()
      modifies this
      ensures Valid()
      ensures r == Need(|old(Contents())| < cap, TooManyMessages)
      ensures Contents() == if r.Pass? then old(Contents()) + [m] else old(Contents())
    {
      MigrateLegacy();
      var n := if count.Some? then count.value else 0;
      if n >= cap {
        return Fail(TooManyMessages);
      }
      slots := slots[n := m];
      count := Some(n + 1);
      r := Pass;
    }

    /** The storage step of `post_message`: a thread within its cap stays within it. */
    method Post(m: Message) returns (r: Check)
      requires Valid()
      modifies this
      ensures Valid() && r == Need(|old(Contents())| < MAX_MESSAGES_PER_ESCROW, TooManyMessages)
      ensures Contents() == if r.Pass? then old(Contents()) + [m] else old(Contents())
      ensures |old(Contents())| <= MAX_MESSAGES_PER_ESCROW ==> |Contents()| <= MAX_MESSAGES_PER_ESCROW
    {
      r := Append(m, MAX_MESSAGES_PER_ESCROW);
    }

    /** `get_messages`: one page, read slot by slot. */
    method Page(start: u64, limit: u64) returns (page: seq<Message>)
      requires Valid()
      ensures page == Window(Contents(), start, Min(limit, MAX_MESSAGES_PER_PAGE))
    {
      var maxLimit := if limit > MAX_MESSAGES_PER_PAGE then MAX_MESSAGES_PER_PAGE else limit;
      var total := Count();
      page := [];
      if start >= total {
        return;
      }
      var end := Min(start + maxLimit, total);
      var i := start;
      while i < end
        invariant start <= i <= end && page == Contents()[start..i]
      {
        var message := At(i);
        assert message == Some(Contents()[i]);
        if message.Some? {
          page := page + [message.value];
        }
        SliceGrows(Contents(), start, i);
        i := i + 1;
      }
    }

    /** The documented paging loop: advance by what came back, stop at a page shorter than fifty. */
    method ReadThread() returns (messages: seq<Message>)
      requires Valid()
      ensures messages == Contents()
    {
      messages := [];
      var more := true;
      while more
        invariant |messages| <= |Contents()| && messages == Contents()[..|messages|]
        invariant !more ==> |messages| == |Contents()|
        decreases more, |Contents()| - |messages|
      {
        var page := Page(|messages|, MAX_MESSAGES_PER_PAGE);
        WindowExtends(Contents(), |messages|, MAX_MESSAGES_PER_PAGE);
        messages := messages + page;
        more := |page| == MAX_MESSAGES_PER_PAGE;
      }
    }
  }
}
