/** The history `g_hist`: the last MaxHistory evaluated lines with their
    outcome, oldest first. */
module History {
  import opened CalcTypes

  /** Length of the `err` buffer without its terminator. */
  const ErrLen: nat := 127

  datatype HistoryItem = HistoryItem(expr: string, result: real, ok: bool, err: string)

  /** The entry `history_add` builds: the error text is kept only for a failed
      line with a message, cut to the buffer size. */
  function MakeItem(expr: string, value: real, ok: bool, errmsg: Option<string>): (it: HistoryItem)
    ensures it.expr == expr && it.result == value && it.ok == ok
    ensures |it.err| <= ErrLen
    ensures ok || errmsg.None? ==> it.err == []
    ensures !ok && errmsg.Some? ==>
      |it.err| <= |errmsg.value| && it.err == errmsg.value[..|it.err|] &&
      (|it.err| == |errmsg.value| || |it.err| == ErrLen)
  {
    var err :=
      if !ok && errmsg.Some? then
        (if |errmsg.value| <= ErrLen then errmsg.value else errmsg.value[..ErrLen])
      else [];
    HistoryItem(expr, value, ok, err)
  }

  /** `history_add` on the list of entries: a full history drops its oldest
      entry before appending. */
  function AddSpec(h: seq<HistoryItem>, it: HistoryItem): seq<HistoryItem> {
    (if |h| >= MaxHistory then h[1..] else h) + [it]
  }

  /** The last `n` elements of a sequence (all of it when shorter). */
  function Newest<T>(s: seq<T>, n: nat): (r: seq<T>)
    ensures |r| <= n && |r| <= |s|
    ensures r == s[|s| - |r|..]
    ensures |s| <= n ==> r == s
  {
    if |s| <= n then s else s[|s| - n..]
  }

  /** Adding keeps the newest MaxHistory lines, the new one last. */
  lemma AddKeepsNewest(h: seq<HistoryItem>, it: HistoryItem)
    requires |h| <= MaxHistory
    ensures AddSpec(h, it) == Newest(h + [it], MaxHistory)
    ensures |AddSpec(h, it)| <= MaxHistory && Last(AddSpec(h, it)) == it
  {
    if |h| == MaxHistory {
      assert (h + [it])[|h + [it]| - MaxHistory..] == h[1..] + [it];
    }
  }

  /** Adding lines one after another. */
  function AddAll(h: seq<HistoryItem>, items: seq<HistoryItem>): seq<HistoryItem>
    decreases |items|
  {
    if items == [] then h else AddAll(AddSpec(h, items[0]), items[1..])
  }

  /** Whatever the sequence of lines added, the history holds exactly the
      newest MaxHistory of all of them, in order. */
  lemma {:induction false} AddAllKeepsNewest(h: seq<HistoryItem>, items: seq<HistoryItem>)
    requires |h| <= MaxHistory
    ensures AddAll(h, items) == Newest(h + items, MaxHistory)
    decreases |items|
  {
    if items != [] {
      AddKeepsNewest(h, items[0]);
      var h1 := AddSpec(h, items[0]);
      AddAllKeepsNewest(h1, items[1..]);
      var whole := h + items;
      var rest := h1 + items[1..];
      assert h + [items[0]] + items[1..] == whole;
      // h1 is a suffix of h + [items[0]] no shorter than MaxHistory allows,
      // so the newest MaxHistory of rest and of whole agree.
      var d := |h + [items[0]]| - |h1|;
      assert rest == whole[d..];
      assert Newest(rest, MaxHistory) == Newest(whole, MaxHistory);
    }
  }

  /** The history as a fixed array of MaxHistory entries and a count. */
  class HistoryBuffer {
    const items: array<HistoryItem>
    var count: nat

    predicate Valid() reads this { items.Length == MaxHistory && count <= MaxHistory }

    function Contents(): seq<HistoryItem>
      reads this, items
      requires Valid()
    {
      items[..count]
    }

    constructor ()
      ensures Valid() && Contents() == [] && fresh(items)
    {
      items := new HistoryItem[MaxHistory](_ => HistoryItem([], 0.0, false, []));
      count := 0;
    }

    /** The shift loop of `history_add` on a full history: every entry moves
        down one place and the oldest is overwritten. */
    method ShiftDown()
      requires Valid() && count == MaxHistory
      modifies items
      ensures items[..MaxHistory - 1] == old(items[1..])
    {
      var i := 1;
      while i < MaxHistory
        invariant 1 <= i <= MaxHistory
        invariant forall k | 0 <= k < i - 1 :: items[k] == old(items[k + 1])
        invariant forall k | i - 1 <= k < MaxHistory :: items[k] == old(items[k])
      {
        items[i - 1] := items[i];
        i := i + 1;
      }
    }

    /** Stores an entry after the last one, in a history with room for it. */
    method Append(it: HistoryItem)
      requires Valid() && count < MaxHistory
      modifies this, items
      ensures Valid() && Contents() == old(Contents()) + [it]
    {
      items[count] := it;
      count := count + 1;
      assert items[..count] == items[..count - 1] + [it];
    }

    /** `history_add`. */
    method Add(expr: string, value: real, ok: bool, errmsg: Option<string>)
      requires Valid()
      modifies this, items
      ensures Valid()
      ensures Contents() == AddSpec(old(Contents()), MakeItem(expr, value, ok, errmsg))
    {
      var it := MakeItem(expr, value, ok, errmsg);
      if count == MaxHistory {
        ShiftDown();
        count := count - 1;
      }
      Append(it);
    }
  }
}
