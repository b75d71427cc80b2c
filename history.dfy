/** The value-level operations on the analysis history: the capped insert
    that follows a successful analysis, the single-item removal, and how a
    stored list is restored on mount. The page replaces its list with the
    result of each of these rather than editing it in place. */
module History {
  import opened Types

  /** The history keeps at most this many entries. */
  const MaxEntries: nat := 10

  /** JavaScript's `s.slice(0, end)` for a non-negative `end`. */
  function SliceTo<T>(s: seq<T>, end: nat): (r: seq<T>)
    ensures |r| == if end < |s| then end else |s|
    ensures r == s[..|r|]
  {
    if end < |s| then s[..end] else s
  }

  /** `[newEntry, ...prev.slice(0, 9)]`: the new entry goes in front, the
      older ones keep their order, and the oldest one falls off only when
      the list was already full. */
  function Insert(entry: Entry, prev: seq<Entry>): (h: seq<Entry>)
    ensures |h| == if |prev| < MaxEntries then |prev| + 1 else MaxEntries
    ensures h[0] == entry
    ensures h[1..] == prev[..|h| - 1]
    ensures |prev| < MaxEntries ==> h[1..] == prev
  {
    [entry] + SliceTo(prev, MaxEntries - 1)
  }

  /** A sequence in reverse order (last element first). */
  function Reversed<T>(s: seq<T>): (r: seq<T>)
    ensures |r| == |s|
    ensures forall k :: 0 <= k < |s| ==> r[k] == s[|s| - 1 - k]
  {
    if s == [] then [] else [s[|s| - 1]] + Reversed(s[..|s| - 1])
  }

  /** The history after the successful analyses `submitted`, oldest first,
      were each inserted into `start`. */
  function InsertAll(start: seq<Entry>, submitted: seq<Entry>): seq<Entry>
    decreases |submitted|
  {
    if submitted == [] then start
    else Insert(submitted[|submitted| - 1], InsertAll(start, submitted[..|submitted| - 1]))
  }

  /** After any number of successful analyses the history holds the ten
      newest entries, newest first, followed by what was there before as
      far as the cap allows. */
  lemma {:induction false} InsertAllKeepsNewest(start: seq<Entry>, submitted: seq<Entry>)
    requires |start| <= MaxEntries
    ensures InsertAll(start, submitted) == SliceTo(Reversed(submitted) + start, MaxEntries)
    ensures |InsertAll(start, submitted)| <= MaxEntries
    decreases |submitted|
  {
    if submitted != [] {
      var last, earlier := submitted[|submitted| - 1], submitted[..|submitted| - 1];
      var rest := Reversed(earlier) + start;
      InsertAllKeepsNewest(start, earlier);
      assert Reversed(submitted) + start == [last] + rest;
      var h := Insert(last, SliceTo(rest, MaxEntries));
      assert h == SliceTo([last] + rest, MaxEntries) by {
        var t := SliceTo([last] + rest, MaxEntries);
        assert |h| == |t|;
        forall k | 0 <= k < |h| ensures h[k] == t[k] {
          if k > 0 {
            assert h[k] == h[1..][k - 1];
          }
        }
      }
    }
  }

  /** Where `splice(index, 1)` starts deleting in a list of `len` items:
      a negative index counts from the end, and both ends are clamped. */
  function SpliceStart(len: nat, index: int): nat {
    if index < 0 then (if len + index < 0 then 0 else len + index)
    else if index > len then len
    else index
  }

  /** A copy of `s` from which `splice(index, 1)` has removed one item. */
  function RemoveAt(s: seq<Entry>, index: int): (r: seq<Entry>)
    ensures 0 <= index < |s| ==> r == s[..index] + s[index + 1..]
    ensures -|s| <= index < 0 ==> r == s[..|s| + index] + s[|s| + index + 1..]
    ensures index < -|s| && s != [] ==> r == s[1..]
    ensures index >= |s| ==> r == s
    ensures |r| == if s == [] || index >= |s| then |s| else |s| - 1
  {
    var k := SpliceStart(|s|, index);
    if k < |s| then s[..k] + s[k + 1..] else s
  }

  /** Removing an item takes out exactly that one occurrence and nothing
      else: the others keep their order and their multiplicities. */
  lemma RemoveAtDropsOne(s: seq<Entry>, i: nat)
    requires i < |s|
    ensures multiset(RemoveAt(s, i)) + multiset{s[i]} == multiset(s)
    ensures forall k :: 0 <= k < |RemoveAt(s, i)| ==>
      RemoveAt(s, i)[k] == if k < i then s[k] else s[k + 1]
  {
    assert s == s[..i] + [s[i]] + s[i + 1..];
  }

  /** The persisted value under the history key: a list, or text that does
      not parse as one (which includes the empty string). */
  datatype Stored = Saved(entries: seq<Entry>) | Unparseable

  /** The list the mount effect installs: the parsed stored list when there
      is one, and otherwise the `current` list, left untouched. */
  function Restored(stored: Option<Stored>, current: seq<Entry>): (h: seq<Entry>)
    ensures stored.Some? && stored.value.Saved? ==> h == stored.value.entries
    ensures stored.None? || stored == Some(Unparseable) ==> h == current
  {
    match stored
    case Some(Saved(entries)) => entries
    case _ => current
  }

  /** The stored list, if any, respects the cap. */
  predicate StoredWithinCap(stored: Option<Stored>) {
    stored.Some? && stored.value.Saved? ==> |stored.value.entries| <= MaxEntries
  }
}
