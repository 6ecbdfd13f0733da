/** The categorised memory of examples/custom_memory.py: a bounded buffer of
    items plus one bounded list per category, where an item of an unknown
    category is filed under "general", and a context builder that cuts the
    first overflowing item to fill the remaining space exactly. */
module CategorizedMemory {
  import opened Values
  import opened Text
  import Memory

  /** One stored item: `{"content", "timestamp", "metadata", "category"}`. */
  datatype Entry = Entry(content: string, timestamp: nat, metadata: Dict<Value>, category: string)

  /** The categories used when none are given. */
  const DefaultCategories: seq<string> := ["general", "personal", "work", "technical"]

  /** Timestamps strictly increase along `entries` and stay below `clock`. */
  predicate Stamped(entries: seq<Entry>, clock: nat) {
    && (forall i, j :: 0 <= i < j < |entries| ==> entries[i].timestamp < entries[j].timestamp)
    && (forall i :: 0 <= i < |entries| ==> entries[i].timestamp < clock)
  }

  /** `{category: [] for category in categories}`: one empty list per
      distinct category, in order of first occurrence. */
  function EmptyLists(categories: seq<string>): (r: Dict<seq<Entry>>)
    ensures UniqueKeys(r)
    ensures forall c :: HasKey(r, c) <==> c in categories
    ensures forall i :: 0 <= i < |r| ==> r[i].1 == []
    decreases |categories|
  {
    if categories == [] then []
    else
      var init := categories[..|categories| - 1];
      var last := categories[|categories| - 1];
      var d := EmptyLists(init);
      SetKeepsUniqueKeys(d, last, []);
      forall c ensures HasKey(Set(d, last, []), c) <==> c in categories {
        SetKeys(d, last, [], c);
        assert c in categories <==> c in init || c == last by {
          assert categories == init + [last];
        }
      }
      Set(d, last, [])
  }

  /** The per-category lists: one per distinct category, each in timestamp
      order below `clock` and, for a positive capacity, at most `m` long. */
  ghost predicate Shaped(d: Dict<seq<Entry>>, categories: seq<string>, clock: nat, m: int) {
    && UniqueKeys(d)
    && (forall c :: HasKey(d, c) <==> c in categories)
    && (forall i :: 0 <= i < |d| ==> Stamped(d[i].1, clock))
    && (m >= 1 ==> forall i :: 0 <= i < |d| ==> |d[i].1| <= m)
  }

  /** The fresh lists are well shaped at any clock. */
  lemma EmptyShaped(categories: seq<string>, m: int)
    ensures Shaped(EmptyLists(categories), categories, 0, m)
  {
    var d := EmptyLists(categories);
    forall i | 0 <= i < |d| ensures Stamped(d[i].1, 0) && |d[i].1| == 0 {
      assert d[i].1 == [];
    }
  }

  /** Appending an entry stamped `clock` and trimming keeps the entries in
      timestamp order and, for a positive capacity, within it. */
  lemma AppendStamped(entries: seq<Entry>, e: Entry, clock: nat, m: int)
    requires Stamped(entries, clock) && e.timestamp == clock
    requires m >= 1 ==> |entries| <= m
    ensures Stamped(Memory.Trim(entries + [e], m), clock + 1)
    ensures m >= 1 ==> |Memory.Trim(entries + [e], m)| <= m
  {
    var s := entries + [e];
    forall i, j | 0 <= i < j < |s| ensures s[i].timestamp < s[j].timestamp {
      if j == |entries| {
        assert s[i] == entries[i];
      } else {
        assert s[i] == entries[i] && s[j] == entries[j];
      }
    }
    forall i | 0 <= i < |s| ensures s[i].timestamp < clock + 1 {
      if i < |entries| { assert s[i] == entries[i]; }
    }
    var r := Memory.Trim(s, m);
    StampedSuffix(s, clock + 1, |s| - |r|);
    if m >= 1 {
      Memory.TrimKeepsNewest(s, m);
    }
  }

  /** A suffix of entries in timestamp order is in timestamp order. */
  lemma StampedSuffix(s: seq<Entry>, clock: nat, k: nat)
    requires Stamped(s, clock) && k <= |s|
    ensures Stamped(s[k..], clock)
  {
    var r := s[k..];
    forall i, j | 0 <= i < j < |r| ensures r[i].timestamp < r[j].timestamp {
      assert r[i] == s[k + i] && r[j] == s[k + j];
    }
    forall i | 0 <= i < |r| ensures r[i].timestamp < clock {
      assert r[i] == s[k + i];
    }
  }

  /** The lists stay well shaped as the clock moves on. */
  lemma ShapedLater(d: Dict<seq<Entry>>, categories: seq<string>, clock: nat, m: int)
    requires Shaped(d, categories, clock, m)
    ensures Shaped(d, categories, clock + 1, m)
  {
    forall j | 0 <= j < |d| ensures Stamped(d[j].1, clock + 1) {
      assert Stamped(d[j].1, clock);
    }
  }

  /** `categorized_items[t].append(e)` followed by the trim of that list. */
  function Filed(d: Dict<seq<Entry>>, t: string, e: Entry, m: int): Dict<seq<Entry>>
    requires HasKey(d, t)
  {
    Set(d, t, Memory.Trim(Get(d, t).value + [e], m))
  }

  /** Filing an entry stamped `clock` keeps the lists well shaped. */
  lemma FiledKeepsShape(d: Dict<seq<Entry>>, categories: seq<string>, clock: nat, m: int, t: string, e: Entry)
    requires Shaped(d, categories, clock, m) && HasKey(d, t) && e.timestamp == clock
    ensures Shaped(Filed(d, t, e, m), categories, clock + 1, m)
  {
    var old_list := Get(d, t).value;
    var i :| 0 <= i < |d| && d[i] == (t, old_list);
    AppendStamped(old_list, e, clock, m);
    var list := Memory.Trim(old_list + [e], m);
    var r := Set(d, t, list);
    assert r == Filed(d, t, e, m);
    SetKeepsUniqueKeys(d, t, list);
    forall c ensures HasKey(r, c) <==> c in categories {
      SetKeys(d, t, list, c);
    }
    ShapedLater(d, categories, clock, m);
    forall j | 0 <= j < |r| ensures Stamped(r[j].1, clock + 1) && (m >= 1 ==> |r[j].1| <= m) {
      if r[j] != (t, list) {
        assert j < |d| && r[j] == d[j];
        assert Stamped(d[j].1, clock + 1);
      }
    }
  }

  /** The list an item of `category` is filed under. */
  function Target(categories: seq<string>, category: string): string {
    if category in categories then category else "general"
  }

  /** The context loop: whole texts while they fit in `budget` characters;
      the first that does not fit is cut to the space left, and the loop ends. */
  function Fill(texts: seq<string>, budget: int): string
    decreases |texts|
  {
    if texts == [] then ""
    else if |texts[0]| > budget then (if budget > 0 then texts[0][..budget] else "")
    else texts[0] + Fill(texts[1..], budget - |texts[0]|)
  }

  /** The context is exactly the first `budget` characters of all the item
      texts one after another (nothing for a negative budget). */
  lemma {:induction false} FillIsPrefix(texts: seq<string>, budget: int)
    ensures Fill(texts, budget) == if budget < 0 then "" else Take(Concat(texts), budget)
    decreases |texts|
  {
    if texts != [] {
      var t := texts[0];
      var all := Concat(texts);
      assert all == t + Concat(texts[1..]);
      if |t| > budget {
        if budget > 0 {
          assert all[..budget] == t[..budget];
        }
      } else {
        FillIsPrefix(texts[1..], budget - |t|);
        var rest := Concat(texts[1..]);
        if budget - |t| < |rest| {
          assert all[..budget] == t + rest[..budget - |t|];
        }
      }
    }
  }

  /** The entries `get_context` draws from, `list(reversed(source))[:n]`,
      are the newest ones of `source`, newest first. */
  lemma NewestFirst(source: seq<Entry>, clock: nat, n: int)
    requires Stamped(source, clock)
    ensures var picked := Take(Reverse(source), n);
            && |picked| <= |source|
            && (forall k :: 0 <= k < |picked| ==> picked[k] == source[|source| - 1 - k])
            && (forall i, j :: 0 <= i < j < |picked| ==> picked[i].timestamp > picked[j].timestamp)
  {
    var newest := Reverse(source);
    var picked := Take(newest, n);
    var m := |picked|;
    assert picked == newest[..m];
    forall i, j | 0 <= i < j < m ensures picked[i].timestamp > picked[j].timestamp {
      assert picked[i] == source[|source| - 1 - i] && picked[j] == source[|source| - 1 - j];
    }
  }

  /** The context never exceeds its budget. */
  lemma FillBound(texts: seq<string>, budget: int)
    ensures |Fill(texts, budget)| <= if budget < 0 then 0 else budget
  {
    FillIsPrefix(texts, budget);
  }

  /** The text of one item in the context: `"[<category>] <content>\n\n"`. */
  function EntryText(e: Entry): string {
    "[" + e.category + "] " + e.content + "\n\n"
  }

  function EntryTexts(entries: seq<Entry>): (r: seq<string>)
    ensures |r| == |entries|
    ensures forall k :: 0 <= k < |r| ==> r[k] == EntryText(entries[k])
  {
    seq(|entries|, k requires 0 <= k < |entries| => EntryText(entries[k]))
  }

  /** The loop of `get_context` over the candidate items. */
  method BuildContext(candidates: seq<Entry>, maxLength: int) returns (context: string)
    ensures context == Fill(EntryTexts(candidates), maxLength)
  {
    ghost var texts := EntryTexts(candidates);
    context := "";
    var i := 0;
    while i < |candidates|
      invariant 0 <= i <= |candidates|
      invariant context + Fill(texts[i..], maxLength - |context|) == Fill(texts, maxLength)
    {
      var text := EntryText(candidates[i]);
      FillTurn(texts, i, context, maxLength);
      if |context| + |text| > maxLength {
        var available := maxLength - |context|;
        if available > 0 {
          context := context + text[..available];
        }
        return;
      }
      context := context + text;
      i := i + 1;
    }
    assert texts[i..] == [] && context + "" == context;
  }

  /** One turn of the loop of `get_context`: a text that does not fit is
      cut to the space left and ends the context; one that fits is added. */
  lemma FillTurn(texts: seq<string>, i: nat, context: string, maxLength: int)
    requires i < |texts| && context + Fill(texts[i..], maxLength - |context|) == Fill(texts, maxLength)
    ensures |context| + |texts[i]| > maxLength ==>
              Fill(texts, maxLength) == if maxLength - |context| > 0 then context + texts[i][..maxLength - |context|] else context
    ensures |context| + |texts[i]| <= maxLength ==>
              (context + texts[i]) + Fill(texts[i + 1..], maxLength - |context + texts[i]|) == Fill(texts, maxLength)
  {
    var available := maxLength - |context|;
    assert texts[i..][0] == texts[i] && texts[i..][1..] == texts[i + 1..];
    if |context| + |texts[i]| > maxLength {
      if available <= 0 {
        assert context + "" == context;
      }
    } else {
      var rest := Fill(texts[i + 1..], available - |texts[i]|);
      assert context + (texts[i] + rest) == (context + texts[i]) + rest;
    }
  }

  /** `get_context()` without a query: the newest `n` entries of `source`
      rendered and filled into `maxLength` characters, then stripped. */
  function Context(source: seq<Entry>, n: int, maxLength: int): string {
    Strip(Fill(EntryTexts(Take(Reverse(source), n)), maxLength))
  }

  /** `{category: len(items) for category, items in d.items()}`. */
  function Counts(d: Dict<seq<Entry>>): (r: Dict<int>)
    ensures |r| == |d|
    ensures forall i :: 0 <= i < |r| ==> r[i] == (d[i].0, |d[i].1|)
  {
    seq(|d|, i requires 0 <= i < |d| => (d[i].0, |d[i].1|))
  }

  /** The counts have the same keys as the lists, and each count is the
      length of the list under the same key. */
  lemma {:induction false} CountsAgree(d: Dict<seq<Entry>>, c: string)
    ensures HasKey(Counts(d), c) <==> HasKey(d, c)
    ensures HasKey(d, c) ==> Get(Counts(d), c) == Some(|Get(d, c).value|)
    decreases |d|
  {
    if d != [] {
      CountsAgree(d[1..], c);
      assert Counts(d)[1..] == Counts(d[1..]);
      HasKeyCons(d, c);
      HasKeyCons(Counts(d), c);
    }
  }

  class CategorizedMemory {
    const maxItems: int
    const maxContextLength: int
    const recencyBias: real
    const categories: seq<string>
    var items: seq<Entry>
    /** `categorized_items`: category name to its list, in insertion order. */
    var categorized: Dict<seq<Entry>>
    /** The next timestamp; larger than every stored one. */
    var clock: nat

    ghost predicate Valid()
      reads this`categorized, this`items, this`clock
    {
      && Shaped(categorized, categories, clock, maxItems)
      && Stamped(items, clock)
      && (maxItems >= 1 ==> |items| <= maxItems)
    }

    /** `CategorizedMemory(..., categories)`: a missing or empty list of
        categories means the default ones; every list starts empty. */
    constructor(maxItems: int, maxContextLength: int, recencyBias: real, categories: Option<seq<string>>)
      ensures Valid()
      ensures this.maxItems == maxItems && this.maxContextLength == maxContextLength && this.recencyBias == recencyBias
      ensures this.categories == if categories.None? || categories.value == [] then DefaultCategories else categories.value
      ensures items == [] && categorized == EmptyLists(this.categories)
    {
      this.maxItems := maxItems;
      this.maxContextLength := maxContextLength;
      this.recencyBias := recencyBias;
      var cs := if categories.None? || categories.value == [] then DefaultCategories else categories.value;
      this.categories := cs;
      items := [];
      categorized := EmptyLists(cs);
      clock := 0;
      EmptyShaped(cs, maxItems);
    }

    /** `add(content, metadata, category)`. The item goes to the end of
        `items` and of its category's list, or of "general" for an unknown
        category; each list is then trimmed to its newest `max_items`. When
        the category is unknown and there is no "general" list, the lookup
        raises `KeyError` (`raised`) after `items` has already changed. */
    method Add(content: string, metadata: Option<Dict<Value>>, category: string) returns (raised: bool)
      requires Valid()
      modifies this`items, this`categorized, this`clock
      ensures Valid()
      ensures var e := Entry(content, old(clock), metadata.GetOr([]), category);
              && items == Memory.Trim(old(items) + [e], maxItems)
              && (raised <==> category !in categories && "general" !in categories)
              && (raised ==> categorized == old(categorized))
              && (!raised ==> var t := Target(categories, category);
                    HasKey(old(categorized), t)
                    && categorized == Filed(old(categorized), t, e, maxItems))
      ensures clock == old(clock) + 1
    {
      var e := Entry(content, clock, metadata.GetOr([]), category);
      Append(e);
      raised := FileUnder(category, e);
    }

    /** The filing part of `add`: the entry goes to its category's list, or
        to "general" for an unknown category, which raises `KeyError` when
        there is no "general" list. Then the clock moves on. */
    method FileUnder(category: string, e: Entry) returns (raised: bool)
      requires Shaped(categorized, categories, clock, maxItems) && e.timestamp == clock
      requires Stamped(items, clock + 1) && (maxItems >= 1 ==> |items| <= maxItems)
      modifies this`categorized, this`clock
      ensures Valid() && clock == old(clock) + 1
      ensures raised <==> category !in categories && "general" !in categories
      ensures raised ==> categorized == old(categorized)
      ensures !raised ==> var t := Target(categories, category);
                HasKey(old(categorized), t) && categorized == Filed(old(categorized), t, e, maxItems)
    {
      var t := if category in categories then category else "general";
      if t !in categories {
        ShapedLater(categorized, categories, clock, maxItems);
        clock := clock + 1;
        return true;
      }
      raised := false;
      File(t, e);
      clock := clock + 1;
    }

    /** `self.items.append(item)` and the trim of `items` to its newest `max_items`. */
    method Append(e: Entry)
      requires Stamped(items, clock) && (maxItems >= 1 ==> |items| <= maxItems) && e.timestamp == clock
      modifies this`items
      ensures items == Memory.Trim(old(items) + [e], maxItems)
      ensures Stamped(items, clock + 1) && (maxItems >= 1 ==> |items| <= maxItems)
    {
      AppendStamped(items, e, clock, maxItems);
      var all := items + [e];
      if |all| > maxItems {
        all := Drop(all, -maxItems);
      }
      assert all == Memory.Trim(items + [e], maxItems);
      items := all;
    }

    /** The append of the item to the list of its target category, and the
        trim of that list to its newest `max_items`. */
    method File(t: string, e: Entry)
      requires Shaped(categorized, categories, clock, maxItems) && HasKey(categorized, t) && e.timestamp == clock
      modifies this`categorized
      ensures categorized == Filed(old(categorized), t, e, maxItems)
      ensures Shaped(categorized, categories, clock + 1, maxItems)
    {
      var list := Memory.Trim(Get(categorized, t).value + [e], maxItems);
      FiledKeepsShape(categorized, categories, clock, maxItems, t, e);
      categorized := Set(categorized, t, list);
    }

    /** `get_context(max_items=limit, max_length=maxLength, category=category)`
        with no query. A missing or zero limit or length means the instance
        default; a missing, empty or unknown category means all items. */
    method GetContext(limit: Option<int>, maxLength: Option<int>, category: Option<string>) returns (r: string)
      requires Valid()
      ensures var source := if category.Some? && category.value != "" && category.value in categories
                            then Get(categorized, category.value).value else items;
              r == Context(source, Memory.LimitOr(limit, maxItems), Memory.LimitOr(maxLength, maxContextLength))
      ensures |r| <= if Memory.LimitOr(maxLength, maxContextLength) < 0 then 0 else Memory.LimitOr(maxLength, maxContextLength)
    {
      var n := if limit.None? || limit.value == 0 then maxItems else limit.value;
      var len := if maxLength.None? || maxLength.value == 0 then maxContextLength else maxLength.value;
      var source := items;
      if category.Some? && category.value != "" && category.value in categories {
        source := Get(categorized, category.value).value;
      }
      var context := BuildContext(Take(Reverse(source), n), len);
      FillBound(EntryTexts(Take(Reverse(source), n)), len);
      r := Strip(context);
    }

    /** `get_category_stats()`: each category with the length of its list. */
    function CategoryStats(): (r: Dict<int>)
      reads this
      requires Valid()
      ensures forall c :: HasKey(r, c) <==> c in categories
      ensures forall c :: c in categories ==> Get(r, c) == Some(|Get(categorized, c).value|)
    {
      forall c
        ensures (HasKey(Counts(categorized), c) <==> c in categories)
        ensures c in categories ==> Get(Counts(categorized), c) == Some(|Get(categorized, c).value|)
      {
        CountsAgree(categorized, c);
      }
      Counts(categorized)
    }

    /** `clear()`: no items, and every category's list empty again. */
    method Clear()
      requires Valid()
      modifies this`items, this`categorized
      ensures Valid()
      ensures items == [] && categorized == EmptyLists(categories) && clock == old(clock)
      ensures forall c :: c in categories ==> Get(CategoryStats(), c) == Some(0)
    {
      items := [];
      categorized := EmptyLists(categories);
      EmptyShaped(categories, maxItems);
    }
  }
}
