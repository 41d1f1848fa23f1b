/** Media selection (lib/media-utils.ts): items whose source mentions one of the keywords go
    first, then the rest; the result keeps the first item of each non-blank source key and
    stops once `count` items are kept. Lower-casing is ASCII only. */
module MediaUtils {
  import opened Wrappers
  import opened TextUtil

  datatype MediaItem = MediaItem(src: Option<string>, url: Option<string>, poster: Option<string>, title: Option<string>)

  const DefaultKeywords: seq<string> := ["主婚", "主纱", "主婚单", "主婚合影"]

  /** `it.src ?? it.url ?? ''`: a present but empty `src` is kept, it does not fall back to `url`. */
  function Source(it: MediaItem): string {
    match it.src
    case Some(s) => s
    case None => it.url.GetOr("")
  }

  /** The de-duplication key. */
  function Key(it: MediaItem): string {
    Trim(Source(it))
  }

  function LowerAll(keywords: seq<string>): (r: seq<string>)
    ensures |r| == |keywords| && forall i :: 0 <= i < |r| ==> r[i] == Lower(keywords[i])
  {
    seq(|keywords|, (i: int) requires 0 <= i < |keywords| => Lower(keywords[i]))
  }

  /** `lowerKeys.some(k => key.includes(k))`. */
  predicate AnyOccurs(key: string, lowerKeys: seq<string>) {
    lowerKeys != [] && (Contains(key, lowerKeys[0]) || AnyOccurs(key, lowerKeys[1..]))
  }

  /** `hasKeyword`: some lower-cased keyword occurs in the lower-cased source. */
  predicate HasKeyword(it: MediaItem, lowerKeys: seq<string>) {
    AnyOccurs(Lower(Source(it)), lowerKeys)
  }

  lemma {:induction false} AnyOccursMeansSome(key: string, lowerKeys: seq<string>)
    ensures AnyOccurs(key, lowerKeys) <==> exists i :: 0 <= i < |lowerKeys| && Contains(key, lowerKeys[i])
  {
    if lowerKeys != [] {
      AnyOccursMeansSome(key, lowerKeys[1..]);
      assert forall i :: 0 < i < |lowerKeys| ==> lowerKeys[1..][i - 1] == lowerKeys[i];
    }
  }

  /** `xs.filter(f)`. */
  function Filter<T>(xs: seq<T>, f: T -> bool): (r: seq<T>)
    ensures |r| <= |xs|
  {
    if xs == [] then []
    else if f(xs[0]) then [xs[0]] + Filter(xs[1..], f)
    else Filter(xs[1..], f)
  }

  /** A filter keeps exactly the elements that pass. */
  lemma {:induction false} FilterMembers<T>(xs: seq<T>, f: T -> bool)
    ensures forall x :: x in Filter(xs, f) ==> x in xs && f(x)
    ensures forall x :: x in xs && f(x) ==> x in Filter(xs, f)
  {
    if xs != [] {
      FilterMembers(xs[1..], f);
      assert forall x :: x in xs <==> x == xs[0] || x in xs[1..];
    }
  }

  /** A filter keeps the input order: it distributes over concatenation. */
  lemma {:induction false} FilterAppend<T>(a: seq<T>, b: seq<T>, f: T -> bool)
    ensures Filter(a + b, f) == Filter(a, f) + Filter(b, f)
  {
    if a == [] {
      assert a + b == b;
    } else {
      assert (a + b)[0] == a[0] && (a + b)[1..] == a[1..] + b;
      FilterAppend(a[1..], b, f);
    }
  }

  /** `xs.filter(x => !f(x))`. */
  function Reject<T>(xs: seq<T>, f: T -> bool): (r: seq<T>)
    ensures |r| <= |xs|
  {
    if xs == [] then []
    else if f(xs[0]) then Reject(xs[1..], f)
    else [xs[0]] + Reject(xs[1..], f)
  }

  lemma {:induction false} RejectMembers<T>(xs: seq<T>, f: T -> bool)
    ensures forall x :: x in Reject(xs, f) ==> x in xs && !f(x)
  {
    if xs != [] {
      RejectMembers(xs[1..], f);
    }
  }

  /** The passing and the failing elements together are the list, nothing lost or added. */
  lemma {:induction false} FilterSplit<T>(xs: seq<T>, f: T -> bool)
    ensures multiset(Filter(xs, f)) + multiset(Reject(xs, f)) == multiset(xs)
  {
    if xs != [] {
      FilterSplit(xs[1..], f);
      assert xs == [xs[0]] + xs[1..];
      assert multiset(xs) == multiset{xs[0]} + multiset(xs[1..]);
      if f(xs[0]) {
        assert multiset(Filter(xs, f)) == multiset{xs[0]} + multiset(Filter(xs[1..], f));
        assert Reject(xs, f) == Reject(xs[1..], f);
      } else {
        assert Filter(xs, f) == Filter(xs[1..], f);
        assert multiset(Reject(xs, f)) == multiset{xs[0]} + multiset(Reject(xs[1..], f));
      }
    }
  }

  /** `[...prioritized, ...others]`. */
  function Ordered(items: seq<MediaItem>, lowerKeys: seq<string>): seq<MediaItem> {
    Filter(items, it => HasKeyword(it, lowerKeys)) + Reject(items, it => HasKeyword(it, lowerKeys))
  }

  /** Reordering loses and adds nothing, and each group keeps the input order. */
  lemma OrderedIsPermutation(items: seq<MediaItem>, lowerKeys: seq<string>)
    ensures multiset(Ordered(items, lowerKeys)) == multiset(items)
  {
    var f := it => HasKeyword(it, lowerKeys);
    FilterSplit(items, f);
    assert multiset(Filter(items, f) + Reject(items, f)) == multiset(Filter(items, f)) + multiset(Reject(items, f));
  }

  /** Every element passing `f` precedes every element failing it. */
  predicate Grouped<T>(xs: seq<T>, f: T -> bool) {
    forall i, j :: 0 <= i < j < |xs| && f(xs[j]) ==> f(xs[i])
  }

  lemma OrderedIsGrouped(items: seq<MediaItem>, lowerKeys: seq<string>)
    ensures Grouped(Ordered(items, lowerKeys), it => HasKeyword(it, lowerKeys))
  {
    FilterSplitGrouped(items, it => HasKeyword(it, lowerKeys));
  }

  lemma FilterSplitGrouped<T>(xs: seq<T>, f: T -> bool)
    ensures Grouped(Filter(xs, f) + Reject(xs, f), f)
  {
    FilterMembers(xs, f);
    RejectMembers(xs, f);
    var ys := Filter(xs, f) + Reject(xs, f);
    var n := |Filter(xs, f)|;
    assert forall i :: 0 <= i < n ==> ys[i] in Filter(xs, f);
    assert forall i :: n <= i < |ys| ==> ys[i] in Reject(xs, f);
  }

  /** `a` is `b` with some elements left out. */
  predicate Subseq<T(==)>(a: seq<T>, b: seq<T>)
    decreases |b|
  {
    a == [] || (b != [] && ((a[0] == b[0] && Subseq(a[1..], b[1..])) || Subseq(a, b[1..])))
  }

  /** The non-blank keys of a list. */
  function Keys<T>(xs: seq<T>, key: T -> string): set<string> {
    if xs == [] then {} else (if key(xs[0]) == "" then {} else {key(xs[0])}) + Keys(xs[1..], key)
  }

  /** What the de-duplication loop keeps of `xs`, given the keys already `seen` and `n`
      places left: an item with a blank or seen key is skipped; a kept item stops the loop
      when it fills the last place (and at once when `n` is not positive). */
  function Keep<T>(xs: seq<T>, key: T -> string, seen: set<string>, n: int): seq<T> {
    if xs == [] then []
    else
      var k := key(xs[0]);
      if k == "" || k in seen then Keep(xs[1..], key, seen, n)
      else [xs[0]] + (if n <= 1 then [] else Keep(xs[1..], key, seen + {k}, n - 1))
  }

  /** What is kept comes from the list and has a non-blank key not seen before. */
  lemma {:induction false} KeepFromList<T>(xs: seq<T>, key: T -> string, seen: set<string>, n: int)
    ensures forall y :: y in Keep(xs, key, seen, n) ==> y in xs && key(y) != "" && key(y) !in seen
  {
    if xs != [] {
      var k := key(xs[0]);
      assert forall y :: y in xs[1..] ==> y in xs;
      if k == "" || k in seen {
        KeepFromList(xs[1..], key, seen, n);
      } else if n > 1 {
        KeepFromList(xs[1..], key, seen + {k}, n - 1);
      }
    }
  }

  /** No two kept items share a key. */
  lemma {:induction false} KeepDistinct<T>(xs: seq<T>, key: T -> string, seen: set<string>, n: int)
    ensures forall i, j :: 0 <= i < j < |Keep(xs, key, seen, n)| ==>
              key(Keep(xs, key, seen, n)[i]) != key(Keep(xs, key, seen, n)[j])
  {
    if xs != [] {
      var k := key(xs[0]);
      if k == "" || k in seen {
        KeepDistinct(xs[1..], key, seen, n);
        assert Keep(xs, key, seen, n) == Keep(xs[1..], key, seen, n);
      } else if n > 1 {
        var rest := Keep(xs[1..], key, seen + {k}, n - 1);
        KeepDistinct(xs[1..], key, seen + {k}, n - 1);
        KeepFromList(xs[1..], key, seen + {k}, n - 1);
        var r := [xs[0]] + rest;
        assert Keep(xs, key, seen, n) == r;
        forall i, j | 0 <= i < j < |r| ensures key(r[i]) != key(r[j]) {
          assert r[j] == rest[j - 1] && rest[j - 1] in rest;
          if i > 0 {
            assert r[i] == rest[i - 1];
            assert key(rest[i - 1]) != key(rest[j - 1]);
          } else {
            assert key(rest[j - 1]) !in seen + {k};
          }
        }
      }
    }
  }

  /** At most `max(n, 1)` items are kept. */
  lemma {:induction false} KeepBound<T>(xs: seq<T>, key: T -> string, seen: set<string>, n: int)
    ensures |Keep(xs, key, seen, n)| <= if n < 1 then 1 else n
  {
    if xs != [] {
      var k := key(xs[0]);
      if k == "" || k in seen {
        KeepBound(xs[1..], key, seen, n);
      } else if n > 1 {
        KeepBound(xs[1..], key, seen + {k}, n - 1);
      }
    }
  }

  lemma {:induction false} KeepIsSubseq<T>(xs: seq<T>, key: T -> string, seen: set<string>, n: int)
    ensures Subseq(Keep(xs, key, seen, n), xs)
  {
    if xs != [] {
      var k := key(xs[0]);
      if k == "" || k in seen {
        KeepIsSubseq(xs[1..], key, seen, n);
      } else if n > 1 {
        KeepIsSubseq(xs[1..], key, seen + {k}, n - 1);
        assert ([xs[0]] + Keep(xs[1..], key, seen + {k}, n - 1))[1..] == Keep(xs[1..], key, seen + {k}, n - 1);
      } else {
        assert [xs[0]][1..] == [];
      }
    }
  }

  lemma {:induction false} KeepKeepsGrouped<T>(xs: seq<T>, key: T -> string, seen: set<string>, n: int, f: T -> bool)
    requires Grouped(xs, f)
    ensures Grouped(Keep(xs, key, seen, n), f)
  {
    if xs != [] {
      var k := key(xs[0]);
      assert Grouped(xs[1..], f) by {
        forall i, j | 0 <= i < j < |xs[1..]| ensures f(xs[1..][j]) ==> f(xs[1..][i]) {
          assert xs[1..][i] == xs[i + 1] && xs[1..][j] == xs[j + 1];
        }
      }
      if k == "" || k in seen {
        KeepKeepsGrouped(xs[1..], key, seen, n, f);
      } else if n > 1 {
        var rest := Keep(xs[1..], key, seen + {k}, n - 1);
        KeepKeepsGrouped(xs[1..], key, seen + {k}, n - 1, f);
        var r := [xs[0]] + rest;
        forall i, j | 0 <= i < j < |r| && f(r[j]) ensures f(r[i]) {
          if i == 0 {
            assert r[j] == rest[j - 1] && rest[j - 1] in rest;
            KeepFromList(xs[1..], key, seen + {k}, n - 1);
            var m :| 0 <= m < |xs[1..]| && xs[1..][m] == r[j];
            assert xs[m + 1] == r[j];
          } else {
            assert r[i] == rest[i - 1] && r[j] == rest[j - 1];
          }
        }
      }
    }
  }

  /** The loop keeps min(places, number of unseen keys) items, with at least one place. */
  lemma {:induction false} KeepLength<T>(xs: seq<T>, key: T -> string, seen: set<string>, n: int)
    ensures var places := if n < 1 then 1 else n;
            var avail := |Keys(xs, key) - seen|;
            |Keep(xs, key, seen, n)| == if places < avail then places else avail
  {
    if xs != [] {
      var k := key(xs[0]);
      var head := if k == "" then {} else {k};
      assert Keys(xs, key) == head + Keys(xs[1..], key);
      if k == "" || k in seen {
        assert Keys(xs, key) - seen == Keys(xs[1..], key) - seen;
        KeepLength(xs[1..], key, seen, n);
      } else {
        assert Keys(xs, key) - seen == {k} + (Keys(xs[1..], key) - (seen + {k}));
        assert k !in Keys(xs[1..], key) - (seen + {k});
        if n > 1 {
          KeepLength(xs[1..], key, seen + {k}, n - 1);
        }
      }
    }
  }

  lemma {:induction false} KeysAreElementKeys<T>(xs: seq<T>, key: T -> string)
    ensures forall k :: k in Keys(xs, key) <==> k != "" && exists x :: x in xs && key(x) == k
  {
    if xs != [] {
      KeysAreElementKeys(xs[1..], key);
      assert forall x :: x in xs <==> x == xs[0] || x in xs[1..];
    }
  }

  /** Lists with the same elements have the same keys. */
  lemma SameKeys<T>(a: seq<T>, b: seq<T>, key: T -> string)
    requires multiset(a) == multiset(b)
    ensures Keys(a, key) == Keys(b, key)
  {
    KeysAreElementKeys(a, key);
    KeysAreElementKeys(b, key);
    assert forall x :: x in a <==> x in b by {
      forall x ensures x in a <==> x in b {
        assert x in a <==> x in multiset(a);
        assert x in b <==> x in multiset(b);
      }
    }
  }

  /** A loop step that skips an item with a blank or seen key. */
  lemma KeepSkips<T>(acc: seq<T>, xs: seq<T>, key: T -> string, seen: set<string>, n: int)
    requires xs != [] && (key(xs[0]) == "" || key(xs[0]) in seen)
    ensures acc + Keep(xs, key, seen, n) == acc + Keep(xs[1..], key, seen, n)
  {
  }

  /** A loop step that keeps an item: it is the last one when it fills the last place. */
  lemma KeepTakes<T>(acc: seq<T>, xs: seq<T>, key: T -> string, seen: set<string>, n: int)
    requires xs != [] && key(xs[0]) != "" && key(xs[0]) !in seen
    ensures n <= 1 ==> acc + Keep(xs, key, seen, n) == acc + [xs[0]]
    ensures n > 1 ==> acc + Keep(xs, key, seen, n) == (acc + [xs[0]]) + Keep(xs[1..], key, seen + {key(xs[0])}, n - 1)
  {
  }

  /** The de-duplication loop, with its `seen` set and early `break`. */
  method Dedupe<T>(ordered: seq<T>, key: T -> string, count: int) returns (result: seq<T>)
    ensures result == Keep(ordered, key, {}, count)
  {
    var seen: set<string> := {};
    result := [];
    var i := 0;
    while i < |ordered|
      invariant 0 <= i <= |ordered|
      invariant Keep(ordered, key, {}, count) == result + Keep(ordered[i..], key, seen, count - |result|)
      invariant result == [] || |result| < count
    {
      var it := ordered[i];
      var k := key(it);
      ghost var rest := ordered[i..];
      ghost var n := count - |result|;
      assert rest[0] == it && rest[1..] == ordered[i + 1..];
      if k == "" || k in seen {
        KeepSkips(result, rest, key, seen, n);
        i := i + 1;
        continue;
      }
      KeepTakes(result, rest, key, seen, n);
      i := i + 1;
      seen := seen + {k};
      result := result + [it];
      assert count - |result| == n - 1;
      if |result| >= count {
        break;
      }
    }
  }

  /** `prioritizeMedia`; `None` stands for an argument that is not an array. */
  method PrioritizeMedia(items: Option<seq<MediaItem>>, count: int, keywords: seq<string>) returns (result: seq<MediaItem>)
    ensures items.None? || items == Some([]) ==> result == []
    ensures items.Some? && items.value != [] ==> result == Keep(Ordered(items.value, LowerAll(keywords)), Key, {}, count)
    ensures forall i, j :: 0 <= i < j < |result| ==> Key(result[i]) != Key(result[j])
    ensures forall y :: y in result ==> Key(y) != "" && items.Some? && y in items.value
    ensures Grouped(result, it => HasKeyword(it, LowerAll(keywords)))
    ensures items.Some? ==> Subseq(result, Ordered(items.value, LowerAll(keywords)))
    ensures var places := if count < 1 then 1 else count;
            var avail := if items.Some? then |Keys(items.value, Key)| else 0;
            |result| == if places < avail then places else avail
  {
    if items.None? || |items.value| == 0 {
      return [];
    }
    var lowerKeys := LowerAll(keywords);
    var ordered := Ordered(items.value, lowerKeys);
    result := Dedupe(ordered, Key, count);
    SelectionFromInput(items.value, lowerKeys, count);
    SelectionShape(items.value, lowerKeys, count);
  }

  /** The selection holds distinct non-blank keys, and only input items. */
  lemma SelectionFromInput(xs: seq<MediaItem>, lowerKeys: seq<string>, count: int)
    ensures var r := Keep(Ordered(xs, lowerKeys), Key, {}, count);
            && (forall i, j :: 0 <= i < j < |r| ==> Key(r[i]) != Key(r[j]))
            && (forall y :: y in r ==> Key(y) != "" && y in xs)
  {
    var ordered := Ordered(xs, lowerKeys);
    OrderedIsPermutation(xs, lowerKeys);
    assert forall y :: y in ordered ==> y in multiset(xs);
    KeepFromList(ordered, Key, {}, count);
    KeepDistinct(ordered, Key, {}, count);
  }

  /** The selection keeps the keyword items first and the order of the reordered list, and
      has as many items as places or distinct keys, whichever is fewer. */
  lemma SelectionShape(xs: seq<MediaItem>, lowerKeys: seq<string>, count: int)
    ensures var r := Keep(Ordered(xs, lowerKeys), Key, {}, count);
            && Grouped(r, it => HasKeyword(it, lowerKeys))
            && Subseq(r, Ordered(xs, lowerKeys))
            && var places := if count < 1 then 1 else count;
               |r| == if places < |Keys(xs, Key)| then places else |Keys(xs, Key)|
  {
    var ordered := Ordered(xs, lowerKeys);
    OrderedIsPermutation(xs, lowerKeys);
    OrderedIsGrouped(xs, lowerKeys);
    KeepKeepsGrouped(ordered, Key, {}, count, it => HasKeyword(it, lowerKeys));
    KeepIsSubseq(ordered, Key, {}, count);
    KeepLength(ordered, Key, {}, count);
    SameKeys(xs, ordered, Key);
  }

  /** The default keywords contain no ASCII capitals, so lower-casing leaves them as they are. */
  lemma DefaultKeywordsAreLower()
    ensures LowerAll(DefaultKeywords) == DefaultKeywords
  {
    forall i | 0 <= i < |DefaultKeywords|
      ensures Lower(DefaultKeywords[i]) == DefaultKeywords[i]
    {
      var w := DefaultKeywords[i];
      assert forall j :: 0 <= j < |w| ==> !('A' <= w[j] <= 'Z');
    }
  }

  /** `prioritizeMedia(items)` with its default arguments: at most one item, picked with the
      default keywords, and one exactly when some item has a non-blank source. */
  method PrioritizeMediaDefault(items: Option<seq<MediaItem>>) returns (result: seq<MediaItem>)
    ensures items.None? || items == Some([]) ==> result == []
    ensures items.Some? && items.value != [] ==> result == Keep(Ordered(items.value, DefaultKeywords), Key, {}, 1)
    ensures |result| <= 1
    ensures |result| == 1 <==> items.Some? && |Keys(items.value, Key)| > 0
    ensures forall y :: y in result ==> Key(y) != "" && items.Some? && y in items.value
  {
    result := PrioritizeMedia(items, 1, DefaultKeywords);
    DefaultKeywordsAreLower();
  }
}
