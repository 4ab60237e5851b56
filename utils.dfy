/** utils.ts: the Fisher–Yates shuffle on a copy, the random file name and
    the no-repeat random picker. Every `Math.random()` value is an input: a
    real number in [0, 1), turned into an index as `Math.floor(r * n)`. */
module Utils {
  import opened Types
  import opened Seqs

  /** Every value is one `Math.random()` could return. */
  predicate ValidDraws(rs: seq<real>) {
    forall k :: 0 <= k < |rs| ==> 0.0 <= rs[k] < 1.0
  }

  /** `Math.floor(r * n)` for `r` in [0, 1): an index below `n`. */
  function RandomIndex(r: real, n: nat): (k: nat)
    requires 0.0 <= r < 1.0 && n > 0
    ensures k < n
  {
    var x := r * n as real;
    assert 0.0 <= x by {
      assert 0.0 <= r && 0.0 <= n as real;
    }
    assert x < n as real by {
      assert n as real - x == (1.0 - r) * n as real;
      assert 0.0 < 1.0 - r && 0.0 < n as real;
    }
    x.Floor
  }

  // ---------------------------------------------------------------------
  // shuffleArray (utils.ts:3-10)
  // ---------------------------------------------------------------------

  function Swap<T>(s: seq<T>, i: nat, j: nat): (r: seq<T>)
    requires i < |s| && j < |s|
    ensures |r| == |s|
  {
    s[i := s[j]][j := s[i]]
  }

  /** A swap keeps every element with its multiplicity. */
  lemma SwapPermutes<T>(s: seq<T>, i: nat, j: nat)
    requires i < |s| && j < |s|
    ensures multiset(Swap(s, i, j)) == multiset(s)
  {
  }

  /** Every entry `j` of `js` is a position at or below its own index: a
      swap partner the countdown loop can draw. */
  predicate SwapPartners(js: seq<nat>) {
    forall k :: 0 <= k < |js| ==> js[k] <= k
  }

  /** The swap partner drawn at each counter value:
      `Math.floor(Math.random() * (i + 1))`. */
  function Partners(rs: seq<real>): (js: seq<nat>)
    requires ValidDraws(rs)
    ensures |js| == |rs| && SwapPartners(js)
  {
    seq(|rs|, k requires 0 <= k < |rs| => RandomIndex(rs[k], k + 1))
  }

  /** What the countdown loop does from counter `i` on: swap position `i`
      with its partner `js[i] <= i`, then go on with `i - 1`. */
  function ShuffleFrom<T>(s: seq<T>, js: seq<nat>, i: int): seq<T>
    requires |js| == |s| && SwapPartners(js) && i < |s|
    decreases i
  {
    if i <= 0 then s
    else ShuffleFrom(Swap(s, i, js[i]), js, i - 1)
  }

  /** The whole shuffle: the loop started at the last position. */
  function Shuffled<T>(s: seq<T>, rs: seq<real>): seq<T>
    requires |rs| == |s| && ValidDraws(rs)
  {
    ShuffleFrom(s, Partners(rs), |s| - 1)
  }

  /** The shuffle is a permutation: same length, same elements with the
      same multiplicities. */
  lemma {:induction false} ShuffleFromPermutes<T>(s: seq<T>, js: seq<nat>, i: int)
    requires |js| == |s| && SwapPartners(js) && i < |s|
    ensures |ShuffleFrom(s, js, i)| == |s|
    ensures multiset(ShuffleFrom(s, js, i)) == multiset(s)
    decreases i
  {
    if i > 0 {
      SwapPermutes(s, i, js[i]);
      ShuffleFromPermutes(Swap(s, i, js[i]), js, i - 1);
    }
  }

  /** `shuffleArray(array)`: the result is a fresh array holding a
      permutation of the input; the input array is not modified (the
      method has no `modifies` clause). `rs[i]` is the random value drawn
      when the loop counter is `i` (`rs[0]` is never drawn). */
  method ShuffleArray<T>(a: array<T>, rs: seq<real>) returns (b: array<T>)
    requires |rs| == a.Length && ValidDraws(rs)
    ensures fresh(b) && b.Length == a.Length
    ensures multiset(b[..]) == multiset(a[..])
    ensures b[..] == Shuffled(a[..], rs)
  {
    ghost var js := Partners(rs);
    ghost var s := a[..];
    b := new T[a.Length](k requires 0 <= k < a.Length reads a => a[k]);
    ghost var cur := s;
    assert b[..] == cur;
    var i := a.Length - 1;
    while i > 0
      invariant -1 <= i < b.Length == |cur| == |js|
      invariant b[..] == cur
      invariant ShuffleFrom(cur, js, i) == ShuffleFrom(s, js, |s| - 1)
    {
      var j := RandomIndex(rs[i], i + 1);
      assert j == js[i];
      b[i], b[j] := b[j], b[i];
      cur := Swap(cur, i, j);
      i := i - 1;
    }
    ShuffleFromPermutes(s, js, |s| - 1);
  }

  // ---------------------------------------------------------------------
  // generateRandomFilename (utils.ts:12-19)
  // ---------------------------------------------------------------------

  const Alphabet: string := "ABCDEFGHIJKLMNOPQRSTUVWXYZabcdefghijklmnopqrstuvwxyz0123456789"
  const DefaultPrefix: string := "prewedding"
  const DefaultExtension: string := "jpeg"
  const RandomLength: nat := 12

  /** The characters drawn by `chars.charAt(Math.floor(Math.random() * chars.length))`. */
  function RandomChars(rs: seq<real>): (r: string)
    requires ValidDraws(rs)
    ensures |r| == |rs| && forall k :: 0 <= k < |r| ==> r[k] in Alphabet
  {
    seq(|rs|, k requires 0 <= k < |rs| => Alphabet[RandomIndex(rs[k], |Alphabet|)])
  }

  function FilenameOf(prefix: string, extension: string, rs: seq<real>): string
    requires ValidDraws(rs)
  {
    prefix + "_" + RandomChars(rs) + "." + extension
  }

  /** `generateRandomFilename(prefix, extension)`: the prefix, an underscore,
      twelve characters of the 62-character alphabet, a dot, the extension. */
  method GenerateRandomFilename(prefix: string, extension: string, rs: seq<real>) returns (name: string)
    requires |rs| == RandomLength && ValidDraws(rs)
    ensures name == FilenameOf(prefix, extension, rs)
    ensures |name| == |prefix| + |extension| + 14
    ensures name[..|prefix|] == prefix && name[|prefix|] == '_'
    ensures forall k :: |prefix| < k < |prefix| + 13 ==> name[k] in Alphabet
    ensures name[|prefix| + 13] == '.' && name[|prefix| + 14..] == extension
  {
    var randomString := "";
    for i := 0 to RandomLength
      invariant randomString == RandomChars(rs)[..i]
    {
      randomString := randomString + [Alphabet[RandomIndex(rs[i], |Alphabet|)]];
    }
    assert randomString == RandomChars(rs);
    name := prefix + "_" + randomString + "." + extension;
    assert forall k :: |prefix| < k < |prefix| + 13 ==> name[k] == randomString[k - |prefix| - 1];
  }

  // ---------------------------------------------------------------------
  // getRandomUnique (utils.ts:98-116)
  // ---------------------------------------------------------------------

  /** The caller's `Set` of items already used; the picker changes it in place. */
  class UsedSet<T(==)> {
    var items: set<T>

    constructor ()
      ensures items == {}
    {
      items := {};
    }

    /** `usedSet.add(x)`. */
    method Add(x: T)
      modifies this
      ensures items == old(items) + {x}
    {
      items := items + {x};
    }

    /** `usedSet.clear()`. */
    method Clear()
      modifies this
      ensures items == {}
    {
      items := {};
    }
  }

  /** `array.filter(item => !usedSet.has(item))`. */
  function Unused<T(==)>(choices: seq<T>, used: set<T>): (r: seq<T>)
    ensures forall k :: 0 <= k < |r| ==> r[k] in choices && r[k] !in used
    ensures forall k :: 0 <= k < |choices| && choices[k] !in used ==> choices[k] in r
  {
    Filter(choices, x => x !in used)
  }

  /** The item `getRandomUnique` returns for the used set `used` and the
      random value `r`: drawn from the unused items, or from all items once
      every item has been used. */
  function UniquePick<T(==)>(choices: seq<T>, used: set<T>, r: real): Option<T>
    requires 0.0 <= r < 1.0
  {
    if choices == [] then None
    else
      var available := if Unused(choices, used) == [] then choices else Unused(choices, used);
      Some(available[RandomIndex(r, |available|)])
  }

  /** `getRandomUnique(array, usedSet)`. An empty array gives no item and
      leaves the set alone. Otherwise the item is one of the array's; it is
      an unused one whenever one exists, and then the set grows by exactly
      that item; when all were used the set restarts as just that item. */
  method GetRandomUnique<T(==)>(choices: seq<T>, usedSet: UsedSet<T>, r: real) returns (item: Option<T>)
    requires 0.0 <= r < 1.0
    modifies usedSet
    ensures item == UniquePick(choices, old(usedSet.items), r)
    ensures choices == [] ==> item == None && usedSet.items == old(usedSet.items)
    ensures choices != [] ==> item.Some? && item.value in choices && item.value in usedSet.items
    ensures (exists k :: 0 <= k < |choices| && choices[k] !in old(usedSet.items)) ==>
              item.Some? && item.value !in old(usedSet.items) && usedSet.items == old(usedSet.items) + {item.value}
    ensures choices != [] && (forall k :: 0 <= k < |choices| ==> choices[k] in old(usedSet.items)) ==>
              usedSet.items == {item.value}
  {
    if |choices| == 0 {
      return None;
    }
    var availableItems := Unused(choices, usedSet.items);
    if |availableItems| == 0 {
      usedSet.Clear();
      availableItems := choices;
    }
    var randomIndex := RandomIndex(r, |availableItems|);
    var selectedItem := availableItems[randomIndex];
    usedSet.Add(selectedItem);
    return Some(selectedItem);
  }
}
