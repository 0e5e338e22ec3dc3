/** What `gatherMeetingsByMetadata` and `gatherRecordingsByMetadata` of
    plugins/inputs/bigbluebutton/bigbluebutton.go compute, stated once for
    both kinds of item.

    Each item carries parsed metadata. For every configured metadata name, in
    order, that the item's metadata contains, the bucket keyed by that name's
    VALUE followed by a fixed suffix is created from an empty field map if it
    is missing, and the item is counted into it. */
module Grouping {

  /** A field map per bucket key. */
  type Buckets = map<string, map<string, nat>>

  /** Counting a list of items into a field map, one after the other. */
  function Tally<T>(count: (map<string, nat>, T) -> map<string, nat>, start: map<string, nat>, items: seq<T>): map<string, nat>
  {
    if items == [] then start else count(Tally(count, start, items[..|items| - 1]), items[|items| - 1])
  }

  /** Counting a prefix one item further. */
  lemma TallyStep<T>(count: (map<string, nat>, T) -> map<string, nat>, start: map<string, nat>, items: seq<T>, i: nat)
    requires i < |items|
    ensures Tally(count, start, items[..i + 1]) == count(Tally(count, start, items[..i]), items[i])
  {
    assert items[..i + 1][..i] == items[..i];
  }

  /** One item fanned out over the configured names. */
  function FanOut<T>(
    b: Buckets, names: seq<string>, parsed: map<string, string>, suffix: string,
    item: T, count: (map<string, nat>, T) -> map<string, nat>, empty: map<string, nat>): Buckets
  {
    if names == [] then b
    else
      CountUnder(FanOut(b, names[..|names| - 1], parsed, suffix, item, count, empty),
                 names[|names| - 1], parsed, suffix, item, count, empty)
  }

  /** One configured name: when the metadata holds it, the bucket of its
      value is created from the empty template if missing, then counted. */
  function CountUnder<T>(
    b: Buckets, name: string, parsed: map<string, string>, suffix: string,
    item: T, count: (map<string, nat>, T) -> map<string, nat>, empty: map<string, nat>): Buckets
  {
    if name in parsed then
      var key := parsed[name] + suffix;
      var fields := if key in b then b[key] else empty;
      b[key := count(fields, item)]
    else b
  }

  /** All items fanned out, starting from no buckets. */
  function AllBuckets<T>(
    names: seq<string>, items: seq<T>, parsedOf: T -> map<string, string>, suffix: string,
    count: (map<string, nat>, T) -> map<string, nat>, empty: map<string, nat>): Buckets
  {
    if items == [] then map[]
    else
      var last := items[|items| - 1];
      FanOut(AllBuckets(names, items[..|items| - 1], parsedOf, suffix, count, empty),
             names, parsedOf(last), suffix, last, count, empty)
  }

  // ---------------------------------------------------------------------
  // A reference description: which items land in which bucket, how often.

  /** How many configured names (counting repeats) the metadata binds to v. */
  function Hits(names: seq<string>, parsed: map<string, string>, v: string): nat
  {
    if names == [] then 0
    else
      var name := names[|names| - 1];
      Hits(names[..|names| - 1], parsed, v) + (if name in parsed && parsed[name] == v then 1 else 0)
  }

  /** x, n times. */
  function Repeat<T>(x: T, n: nat): (r: seq<T>)
    ensures |r| == n
    ensures forall i :: 0 <= i < n ==> r[i] == x
  {
    if n == 0 then [] else Repeat(x, n - 1) + [x]
  }

  /** The items counted into the bucket of value v, in counting order: each
      item once per configured name that binds it to v. */
  function Contributions<T>(names: seq<string>, items: seq<T>, parsedOf: T -> map<string, string>, v: string): seq<T>
  {
    if items == [] then []
    else
      var last := items[|items| - 1];
      Contributions(names, items[..|items| - 1], parsedOf, v) + Repeat(last, Hits(names, parsedOf(last), v))
  }

  /** Appending a suffix is injective. */
  lemma SuffixInjective(a: string, b: string, suffix: string)
    requires a + suffix == b + suffix
    ensures a == b
  {
    assert |a| == |b|;
    assert a == (a + suffix)[..|a|];
    assert b == (b + suffix)[..|b|];
  }

  /** Counting two lists in turn is counting their concatenation. */
  lemma {:induction false} TallyAppend<T>(count: (map<string, nat>, T) -> map<string, nat>, start: map<string, nat>, xs: seq<T>, ys: seq<T>)
    ensures Tally(count, start, xs + ys) == Tally(count, Tally(count, start, xs), ys)
    decreases |ys|
  {
    if ys == [] {
      assert xs + ys == xs;
    } else {
      var ys' := ys[..|ys| - 1];
      assert (xs + ys)[..|xs + ys| - 1] == xs + ys';
      TallyAppend(count, start, xs, ys');
    }
  }

  /** One name: the bucket of value v is counted into iff the name binds v,
      and every other bucket is left alone. */
  lemma CountUnderAt<T>(
    b: Buckets, name: string, parsed: map<string, string>, suffix: string,
    item: T, count: (map<string, nat>, T) -> map<string, nat>, empty: map<string, nat>, v: string)
    ensures var r := CountUnder(b, name, parsed, suffix, item, count, empty);
      var key := v + suffix;
      if name in parsed && parsed[name] == v then
        key in r && r[key] == count(if key in b then b[key] else empty, item)
      else
        (key in r <==> key in b) && (key in r ==> r[key] == b[key])
  {
    if name in parsed && parsed[name] != v {
      assert parsed[name] + suffix != v + suffix by {
        if parsed[name] + suffix == v + suffix {
          SuffixInjective(parsed[name], v, suffix);
        }
      }
    }
  }

  /** One item fanned out: the bucket of value v gains the item once per name
      that binds v, and exists afterwards iff it existed or some name hit. */
  lemma {:induction false} FanOutAt<T>(
    b: Buckets, names: seq<string>, parsed: map<string, string>, suffix: string,
    item: T, count: (map<string, nat>, T) -> map<string, nat>, empty: map<string, nat>, v: string)
    ensures var r := FanOut(b, names, parsed, suffix, item, count, empty);
      var key := v + suffix;
      var hits := Hits(names, parsed, v);
      && (key in r <==> key in b || hits > 0)
      && (key in r ==> r[key] == Tally(count, if key in b then b[key] else empty, Repeat(item, hits)))
  {
    if names != [] {
      var init := names[..|names| - 1];
      var name := names[|names| - 1];
      var key := v + suffix;
      var start := if key in b then b[key] else empty;
      var h := Hits(init, parsed, v);
      FanOutAt(b, init, parsed, suffix, item, count, empty, v);
      var before := FanOut(b, init, parsed, suffix, item, count, empty);
      CountUnderAt(before, name, parsed, suffix, item, count, empty, v);
      if name in parsed && parsed[name] == v {
        assert Hits(names, parsed, v) == h + 1;
        var fields := if key in before then before[key] else empty;
        assert fields == Tally(count, start, Repeat(item, h)) by {
          if key !in before {
            assert Repeat(item, 0) == [];
          }
        }
        TallyRepeat(count, start, item, h);
      } else {
        assert Hits(names, parsed, v) == h;
      }
    }
  }

  /** Counting an item once more. */
  lemma TallyRepeat<T>(count: (map<string, nat>, T) -> map<string, nat>, start: map<string, nat>, item: T, n: nat)
    ensures Tally(count, start, Repeat(item, n + 1)) == count(Tally(count, start, Repeat(item, n)), item)
  {
    var rep := Repeat(item, n + 1);
    assert rep[..|rep| - 1] == Repeat(item, n);
  }

  /** Every bucket key is some metadata value followed by the suffix. */
  lemma {:induction false} FanOutKeys<T>(
    b: Buckets, names: seq<string>, parsed: map<string, string>, suffix: string,
    item: T, count: (map<string, nat>, T) -> map<string, nat>, empty: map<string, nat>)
    requires forall k :: k in b ==> |k| >= |suffix| && k[|k| - |suffix|..] == suffix
    ensures forall k :: k in FanOut(b, names, parsed, suffix, item, count, empty) ==>
      |k| >= |suffix| && k[|k| - |suffix|..] == suffix
  {
    if names != [] {
      var name := names[|names| - 1];
      FanOutKeys(b, names[..|names| - 1], parsed, suffix, item, count, empty);
      if name in parsed {
        var key := parsed[name] + suffix;
        assert key[|key| - |suffix|..] == suffix;
      }
    }
  }

  /** The buckets, described without the fold: the bucket of value v exists
      exactly when some item contributes to it, and holds the count of its
      contributions. */
  lemma {:induction false} BucketsCharacterized<T>(
    names: seq<string>, items: seq<T>, parsedOf: T -> map<string, string>, suffix: string,
    count: (map<string, nat>, T) -> map<string, nat>, empty: map<string, nat>, v: string)
    ensures var r := AllBuckets(names, items, parsedOf, suffix, count, empty);
      var c := Contributions(names, items, parsedOf, v);
      && (v + suffix in r <==> |c| > 0)
      && (v + suffix in r ==> r[v + suffix] == Tally(count, empty, c))
  {
    if items != [] {
      var init := items[..|items| - 1];
      var last := items[|items| - 1];
      var before := AllBuckets(names, init, parsedOf, suffix, count, empty);
      var c := Contributions(names, init, parsedOf, v);
      var hits := Hits(names, parsedOf(last), v);
      BucketsCharacterized(names, init, parsedOf, suffix, count, empty, v);
      FanOutAt(before, names, parsedOf(last), suffix, last, count, empty, v);
      TallyAppend(count, empty, c, Repeat(last, hits));
      if v + suffix !in before {
        assert c == [] && c + Repeat(last, hits) == Repeat(last, hits);
      }
    }
  }

  /** Every bucket key is a metadata value followed by the suffix, so the
      lemma above describes every bucket. */
  lemma {:induction false} BucketKeys<T>(
    names: seq<string>, items: seq<T>, parsedOf: T -> map<string, string>, suffix: string,
    count: (map<string, nat>, T) -> map<string, nat>, empty: map<string, nat>)
    ensures forall k :: k in AllBuckets(names, items, parsedOf, suffix, count, empty) ==>
      |k| >= |suffix| && k == k[..|k| - |suffix|] + suffix
  {
    if items != [] {
      var init := items[..|items| - 1];
      BucketKeys(names, init, parsedOf, suffix, count, empty);
      var before := AllBuckets(names, init, parsedOf, suffix, count, empty);
      forall k | k in before ensures |k| >= |suffix| && k[|k| - |suffix|..] == suffix {
        assert k == k[..|k| - |suffix|] + suffix;
      }
      FanOutKeys(before, names, parsedOf(items[|items| - 1]), suffix, items[|items| - 1], count, empty);
      forall k | k in AllBuckets(names, items, parsedOf, suffix, count, empty)
        ensures k == k[..|k| - |suffix|] + suffix
      {
        assert k == k[..|k| - |suffix|] + k[|k| - |suffix|..];
      }
    }
  }

  /** An item whose metadata holds none of the configured names leaves the
      buckets as they were. */
  lemma {:induction false} FanOutUnmatched<T>(
    b: Buckets, names: seq<string>, parsed: map<string, string>, suffix: string,
    item: T, count: (map<string, nat>, T) -> map<string, nat>, empty: map<string, nat>)
    requires forall i :: 0 <= i < |names| ==> names[i] !in parsed
    ensures FanOut(b, names, parsed, suffix, item, count, empty) == b
  {
    if names != [] {
      FanOutUnmatched(b, names[..|names| - 1], parsed, suffix, item, count, empty);
    }
  }

  /** So such an item only counts globally: adding it to the list changes no bucket. */
  lemma UnmatchedItemGroupsNothing<T>(
    names: seq<string>, items: seq<T>, item: T, parsedOf: T -> map<string, string>, suffix: string,
    count: (map<string, nat>, T) -> map<string, nat>, empty: map<string, nat>)
    requires forall i :: 0 <= i < |names| ==> names[i] !in parsedOf(item)
    ensures AllBuckets(names, items + [item], parsedOf, suffix, count, empty)
         == AllBuckets(names, items, parsedOf, suffix, count, empty)
  {
    assert (items + [item])[..|items|] == items;
    FanOutUnmatched(AllBuckets(names, items, parsedOf, suffix, count, empty), names, parsedOf(item), suffix, item, count, empty);
  }

  /** With no configured names nothing is grouped. */
  lemma {:induction false} NoNamesNoBuckets<T>(
    items: seq<T>, parsedOf: T -> map<string, string>, suffix: string,
    count: (map<string, nat>, T) -> map<string, nat>, empty: map<string, nat>)
    ensures AllBuckets([], items, parsedOf, suffix, count, empty) == map[]
  {
    if items != [] {
      NoNamesNoBuckets(items[..|items| - 1], parsedOf, suffix, count, empty);
    }
  }

  /** Fanning out two items that count alike gives the same buckets. */
  lemma {:induction false} FanOutSameCount<T>(
    b: Buckets, names: seq<string>, parsed: map<string, string>, suffix: string,
    x: T, y: T, count: (map<string, nat>, T) -> map<string, nat>, empty: map<string, nat>)
    requires forall f :: count(f, x) == count(f, y)
    ensures FanOut(b, names, parsed, suffix, x, count, empty) == FanOut(b, names, parsed, suffix, y, count, empty)
  {
    if names != [] {
      FanOutSameCount(b, names[..|names| - 1], parsed, suffix, x, y, count, empty);
    }
  }
}
