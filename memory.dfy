/** The bounded memory buffer of memory/memory.py: a list of timestamped
    items that keeps only the most recent `max_items`, and a context string
    built from the newest items within `max_context_length` characters.

    `time.time()` is replaced by a logical clock that increases with every
    insertion, and `_format_timestamp` by the rendering function `stamp`. */
module Memory {
  import opened Values
  import opened Text

  /** One stored item: `{"content", "timestamp", "metadata"}`. */
  datatype Item = Item(content: string, timestamp: nat, metadata: Dict<Value>)

  /** `s[-m:]` when `len(s) > m`, else `s`: the trim applied after each append. */
  function Trim<T>(s: seq<T>, m: int): (r: seq<T>)
    ensures |r| <= |s| && r == s[|s| - |r|..]
  {
    if |s| > m then Drop(s, -m) else s
  }

  /** With a positive capacity the trim keeps exactly the newest `m` entries. */
  lemma TrimKeepsNewest<T>(s: seq<T>, m: int)
    requires m >= 1
    ensures |Trim(s, m)| == if |s| <= m then |s| else m
    ensures |Trim(s, m)| <= m
  {
  }

  /** A capacity of 0 keeps everything: `s[-0:]` is all of `s`. */
  lemma TrimZeroKeepsAll<T>(s: seq<T>)
    requires |s| > 0
    ensures Trim(s, 0) == s
  {
    assert Clamp(0, |s|) == 0;
  }

  /** A negative capacity `m` drops the `-m` oldest entries. */
  lemma TrimNegativeDropsOldest<T>(s: seq<T>, m: int)
    requires m < 0
    ensures Trim(s, m) == if -m <= |s| then s[-m..] else []
  {
  }

  /** Timestamps strictly increase along `items`. */
  predicate Increasing(items: seq<Item>) {
    forall i, j :: 0 <= i < j < |items| ==> items[i].timestamp < items[j].timestamp
  }

  /** Timestamps strictly increase along `items` and all precede `clock`. */
  predicate Stamped(items: seq<Item>, clock: int) {
    Increasing(items) && forall i :: 0 <= i < |items| ==> items[i].timestamp < clock
  }

  /** A trim keeps the last entry whenever the capacity is not negative. */
  lemma TrimKeepsLast<T>(s: seq<T>, m: int)
    requires m >= 0 && s != []
    ensures Trim(s, m) != [] && Trim(s, m)[|Trim(s, m)| - 1] == s[|s| - 1]
  {
    if m == 0 {
      TrimZeroKeepsAll(s);
    } else if |s| > m {
      assert Clamp(-m, |s|) == |s| - m;
    }
  }

  /** Appending an item stamped `clock` keeps the timestamps increasing. */
  lemma AppendIncreasing(items: seq<Item>, item: Item, clock: nat)
    requires Increasing(items) && (forall i :: 0 <= i < |items| ==> items[i].timestamp < clock)
    requires item.timestamp == clock
    ensures Increasing(items + [item])
  {
    var all := items + [item];
    forall i, j | 0 <= i < j < |all| ensures all[i].timestamp < all[j].timestamp {
      if j == |items| {
        assert all[i] == items[i];
      }
    }
  }

  /** A suffix of increasing items below `bound` is increasing and below `bound`. */
  lemma SuffixInOrder(s: seq<Item>, d: nat, bound: int)
    requires d <= |s| && Increasing(s)
    requires s != [] ==> s[|s| - 1].timestamp < bound
    ensures Increasing(s[d..])
    ensures forall i :: 0 <= i < |s[d..]| ==> s[d..][i].timestamp < bound
  {
    var r := s[d..];
    forall i | 0 <= i < |r| ensures r[i].timestamp < bound {
      assert r[i] == s[d + i];
      if d + i < |s| - 1 {
        assert s[d + i].timestamp < s[|s| - 1].timestamp;
      }
    }
    forall i, j | 0 <= i < j < |r| ensures r[i].timestamp < r[j].timestamp {
      assert r[i] == s[d + i] && r[j] == s[d + j];
    }
  }

  /** Appending an item stamped `clock` and trimming keeps the timestamps
      increasing and below the next clock. */
  lemma AppendInOrder(items: seq<Item>, item: Item, clock: nat, m: int)
    requires Stamped(items, clock)
    requires item.timestamp == clock
    ensures Stamped(Trim(items + [item], m), clock + 1)
  {
    var all := items + [item];
    AppendIncreasing(items, item, clock);
    var r := Trim(all, m);
    SuffixInOrder(all, |all| - |r|, clock + 1);
  }

  /** The no-query branch of `_get_relevant_items`: sorted by timestamp,
      newest first, then `[:n]`. */
  function Newest(items: seq<Item>, n: int): (r: seq<Item>)
    ensures |r| == Clamp(n, |items|)
    ensures forall k :: 0 <= k < |r| ==> r[k] == items[|items| - 1 - k]
  {
    Take(Reverse(items), n)
  }

  /** Newest-first order is timestamp order, descending. */
  lemma NewestFirst(items: seq<Item>, n: int)
    requires Increasing(items)
    ensures forall i, j :: 0 <= i < j < |Newest(items, n)| ==> Newest(items, n)[i].timestamp > Newest(items, n)[j].timestamp
  {
  }

  /** The text of one item in the context: `"[<time>] <content>\n\n"`. */
  function ItemText(item: Item, stamp: nat -> string): string {
    "[" + stamp(item.timestamp) + "] " + item.content + "\n\n"
  }

  function Texts(items: seq<Item>, stamp: nat -> string): (r: seq<string>)
    ensures |r| == |items|
    ensures forall k :: 0 <= k < |r| ==> r[k] == ItemText(items[k], stamp) && |r[k]| > 0
  {
    seq(|items|, k requires 0 <= k < |items| => ItemText(items[k], stamp))
  }

  /** The context-building loop of `get_context`, resumed with `total`
      characters of whole items already in the context. An item that would
      overflow ends the loop; only when nothing has been added yet is it
      added, cut to `maxLen - 3` characters followed by "...". */
  function Assemble(texts: seq<string>, total: int, maxLen: int): string
    decreases |texts|
  {
    if texts == [] then ""
    else if total + |texts[0]| > maxLen then (if total == 0 then Take(texts[0], maxLen - 3) + "..." else "")
    else texts[0] + Assemble(texts[1..], total + |texts[0]|, maxLen)
  }

  /** How many leading texts fit, whole and in order, into `budget` characters. */
  function Fits(texts: seq<string>, budget: int): (k: nat)
    ensures k <= |texts|
    ensures budget >= 0 ==> |Concat(texts[..k])| <= budget
    ensures k < |texts| ==> |Concat(texts[..k + 1])| > budget
    decreases |texts|
  {
    if texts == [] then 0
    else if |texts[0]| > budget then
      ConcatPrefixCons(texts, 0);
      0
    else
      var k := Fits(texts[1..], budget - |texts[0]|);
      ConcatPrefixCons(texts, k);
      ConcatPrefixCons(texts, k + 1);
      1 + k
  }

  /** Once something has been added, the loop adds whole items while they fit. */
  lemma {:induction false} AssembleFrom(texts: seq<string>, total: int, maxLen: int)
    requires total > 0
    ensures Assemble(texts, total, maxLen) == Concat(texts[..Fits(texts, maxLen - total)])
    decreases |texts|
  {
    if texts != [] && total + |texts[0]| <= maxLen {
      var k := Fits(texts[1..], maxLen - total - |texts[0]|);
      AssembleFrom(texts[1..], total + |texts[0]|, maxLen);
      ConcatPrefixCons(texts, k);
    }
  }

  /** The context before stripping: the longest run of leading items that
      fits whole, or, when even the first does not fit, that item cut short
      and marked with "...". */
  lemma AssembleShape(texts: seq<string>, maxLen: int)
    requires forall k :: 0 <= k < |texts| ==> |texts[k]| > 0
    ensures Assemble(texts, 0, maxLen) ==
            if texts != [] && |texts[0]| > maxLen then Take(texts[0], maxLen - 3) + "..."
            else Concat(texts[..Fits(texts, maxLen)])
  {
    if texts != [] && |texts[0]| <= maxLen {
      var k := Fits(texts[1..], maxLen - |texts[0]|);
      AssembleFrom(texts[1..], |texts[0]|, maxLen);
      ConcatPrefixCons(texts, k);
    }
  }

  /** The loop of `get_context` over the candidate items. */
  method BuildContext(candidates: seq<Item>, stamp: nat -> string, maxLen: int) returns (context: string)
    ensures context == Assemble(Texts(candidates, stamp), 0, maxLen)
  {
    ghost var texts := Texts(candidates, stamp);
    context := "";
    var total := 0;
    var i := 0;
    while i < |candidates|
      invariant 0 <= i <= |candidates|
      invariant total == |context|
      invariant context + Assemble(texts[i..], total, maxLen) == Assemble(texts, 0, maxLen)
    {
      var text := ItemText(candidates[i], stamp);
      AssembleTurn(texts, i, context, maxLen);
      if total + |text| > maxLen {
        if total == 0 {
          context := Take(text, maxLen - 3) + "...";
        }
        return;
      }
      context := context + text;
      total := total + |text|;
      i := i + 1;
    }
    assert texts[i..] == [] && context + "" == context;
  }

  /** One turn of the loop of `get_context`, from the context built so far:
      an item that does not fit ends the context, cut short only when the
      context is still empty; one that fits is added. */
  lemma AssembleTurn(texts: seq<string>, i: nat, context: string, maxLen: int)
    requires i < |texts| && context + Assemble(texts[i..], |context|, maxLen) == Assemble(texts, 0, maxLen)
    ensures |context| + |texts[i]| > maxLen ==>
              Assemble(texts, 0, maxLen) == if context == [] then Take(texts[i], maxLen - 3) + "..." else context
    ensures |context| + |texts[i]| <= maxLen ==>
              (context + texts[i]) + Assemble(texts[i + 1..], |context| + |texts[i]|, maxLen) == Assemble(texts, 0, maxLen)
  {
    AssembleStep(texts, i, |context|, maxLen);
    if |context| + |texts[i]| > maxLen {
      if context == [] {
        assert context + Assemble(texts[i..], 0, maxLen) == Assemble(texts[i..], 0, maxLen);
      } else {
        assert context + "" == context;
      }
    } else {
      var rest := Assemble(texts[i + 1..], |context| + |texts[i]|, maxLen);
      assert context + (texts[i] + rest) == (context + texts[i]) + rest;
    }
  }

  /** One turn of the loop of `get_context`. */
  lemma AssembleStep(texts: seq<string>, i: nat, total: int, maxLen: int)
    requires i < |texts|
    ensures Assemble(texts[i..], total, maxLen) ==
            if total + |texts[i]| > maxLen then (if total == 0 then Take(texts[i], maxLen - 3) + "..." else "")
            else texts[i] + Assemble(texts[i + 1..], total + |texts[i]|, maxLen)
  {
    assert texts[i..][0] == texts[i] && texts[i..][1..] == texts[i + 1..];
  }

  /** With room for at least "...", the assembled context never exceeds `maxLen`. */
  lemma AssembleBound(texts: seq<string>, maxLen: int)
    requires maxLen >= 3
    requires forall k :: 0 <= k < |texts| ==> |texts[k]| > 0
    ensures |Assemble(texts, 0, maxLen)| <= maxLen
  {
    AssembleShape(texts, maxLen);
  }

  /** `max_items or self.max_items`: a missing or zero limit means the capacity. */
  function LimitOr(limit: Option<int>, capacity: int): (n: int)
    ensures n == capacity || (limit == Some(n) && n != 0)
  {
    if limit.None? || limit.value == 0 then capacity else limit.value
  }

  /** `get_context()` without a query. */
  function Context(items: seq<Item>, stamp: nat -> string, n: int, maxLen: int): string {
    if items == [] then "" else Strip(Assemble(Texts(Newest(items, n), stamp), 0, maxLen))
  }

  /** The context is never longer than `maxLen` when `maxLen >= 3`. */
  lemma ContextBound(items: seq<Item>, stamp: nat -> string, n: int, maxLen: int)
    requires maxLen >= 3
    ensures |Context(items, stamp, n, maxLen)| <= maxLen
  {
    if items != [] {
      AssembleBound(Texts(Newest(items, n), stamp), maxLen);
    }
  }

  /** What `get_stats()` reports. */
  datatype Stats = Stats(
    totalItems: nat,
    maxItems: int,
    maxContextLength: int,
    recencyBias: real,
    oldest: Option<string>,
    newest: Option<string>)

  class Memory {
    const maxItems: int
    const maxContextLength: int
    const recencyBias: real
    const stamp: nat -> string
    var items: seq<Item>
    /** The next timestamp; larger than every stored one. */
    var clock: nat

    ghost predicate Valid()
      reads this`items, this`clock
    {
      && Stamped(items, clock)
      && (maxItems >= 1 ==> |items| <= maxItems)
    }

    constructor(maxItems: int, maxContextLength: int, recencyBias: real, stamp: nat -> string)
      ensures Valid()
      ensures this.maxItems == maxItems && this.maxContextLength == maxContextLength
      ensures this.recencyBias == recencyBias && this.stamp == stamp
      ensures items == []
    {
      this.maxItems := maxItems;
      this.maxContextLength := maxContextLength;
      this.recencyBias := recencyBias;
      this.stamp := stamp;
      items := [];
      clock := 0;
    }

    /** `add(content, metadata)`: append one item, then trim to the newest `max_items`. */
    method Add(content: string, metadata: Option<Dict<Value>>)
      requires Valid()
      modifies this`items, this`clock
      ensures Valid()
      ensures items == Trim(old(items) + [Item(content, old(clock), metadata.GetOr([]))], maxItems)
      ensures maxItems >= 0 ==> items != [] && items[|items| - 1] == Item(content, old(clock), metadata.GetOr([]))
      ensures clock == old(clock) + 1
    {
      var item := Item(content, clock, metadata.GetOr([]));
      var all := items + [item];
      AppendInOrder(items, item, clock, maxItems);
      if maxItems >= 1 {
        TrimKeepsNewest(all, maxItems);
      }
      assert all[|all| - 1] == item;
      if maxItems >= 0 {
        TrimKeepsLast(all, maxItems);
      }
      items := Trim(all, maxItems);
      clock := clock + 1;
    }

    /** `get_context(max_items=limit)` with no query. */
    method GetContext(limit: Option<int>) returns (r: string)
      requires Valid()
      ensures r == Context(items, stamp, LimitOr(limit, maxItems), maxContextLength)
      ensures items == [] ==> r == ""
      ensures maxContextLength >= 3 ==> |r| <= maxContextLength
    {
      if maxContextLength >= 3 {
        ContextBound(items, stamp, LimitOr(limit, maxItems), maxContextLength);
      }
      if items == [] {
        return "";
      }
      var n := if limit.None? || limit.value == 0 then maxItems else limit.value;
      var context := BuildContext(Newest(items, n), stamp, maxContextLength);
      r := Strip(context);
    }

    /** `clear()`. */
    method Clear()
      modifies this`items
      requires Valid()
      ensures Valid()
      ensures items == [] && clock == old(clock)
    {
      items := [];
    }

    /** `len(memory)`. */
    function Len(): (n: nat)
      reads this
      ensures n == |items|
    {
      |items|
    }

    /** `get_stats()`: the count agrees with `len`, and the oldest and newest
        timestamps are those of the first and last stored items. */
    function GetStats(): (r: Stats)
      reads this
      ensures r.totalItems == Len()
      ensures r.oldest.None? <==> items == []
      ensures r.newest.None? <==> items == []
      ensures items != [] ==> r.oldest == Some(stamp(items[0].timestamp)) && r.newest == Some(stamp(items[|items| - 1].timestamp))
    {
      Stats(
        |items|, maxItems, maxContextLength, recencyBias,
        if items != [] then Some(stamp(items[0].timestamp)) else None,
        if items != [] then Some(stamp(items[|items| - 1].timestamp)) else None)
    }
  }
}
