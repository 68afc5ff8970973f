/**
 * The array operations the pages use on their record lists, as functions on
 * sequences: `filter`, the `map` that rewrites the selected records, and the
 * stable `sort` with a numeric comparator.
 */
module Collections {

  datatype Option<T> = None | Some(value: T)

  datatype Result<T, E> = Ok(value: T) | Err(error: E)

  /** `s.filter(keep)`. */
  function Filter<T>(s: seq<T>, keep: T -> bool): (r: seq<T>)
    ensures |r| <= |s|
    ensures forall i :: 0 <= i < |r| ==> r[i] in s && keep(r[i])
    ensures forall i :: 0 <= i < |s| && keep(s[i]) ==> s[i] in r
  {
    if s == [] then [] else (if keep(s[0]) then [s[0]] else []) + Filter(s[1..], keep)
  }

  /** Filtering a concatenation filters each part and keeps them in order. */
  lemma {:induction false} FilterAppend<T>(a: seq<T>, b: seq<T>, keep: T -> bool)
    ensures Filter(a + b, keep) == Filter(a, keep) + Filter(b, keep)
  {
    if a != [] {
      assert (a + b)[0] == a[0];
      assert (a + b)[1..] == a[1..] + b;
      FilterAppend(a[1..], b, keep);
      var head := if keep(a[0]) then [a[0]] else [];
      calc {
        Filter(a + b, keep);
        head + Filter(a[1..] + b, keep);
        head + (Filter(a[1..], keep) + Filter(b, keep));
        (head + Filter(a[1..], keep)) + Filter(b, keep);
      }
    } else {
      assert a + b == b;
    }
  }

  /** Filtering keeps each kept value as often as it occurs, and drops the others entirely. */
  lemma {:induction false} FilterCount<T>(s: seq<T>, keep: T -> bool, x: T)
    ensures multiset(Filter(s, keep))[x] == if keep(x) then multiset(s)[x] else 0
  {
    if s != [] {
      FilterCount(s[1..], keep, x);
      assert s == [s[0]] + s[1..];
    }
  }

  /** A filter that keeps every element returns the sequence unchanged. */
  lemma {:induction false} FilterKeepsAll<T>(s: seq<T>, keep: T -> bool)
    requires forall i :: 0 <= i < |s| ==> keep(s[i])
    ensures Filter(s, keep) == s
  {
    if s != [] {
      FilterKeepsAll(s[1..], keep);
    }
  }

  /** A filter that keeps no element returns the empty sequence. */
  lemma {:induction false} FilterKeepsNone<T>(s: seq<T>, keep: T -> bool)
    requires forall i :: 0 <= i < |s| ==> !keep(s[i])
    ensures Filter(s, keep) == []
  {
    if s != [] {
      FilterKeepsNone(s[1..], keep);
    }
  }

  /** `r` is the position of the first element of `s` that `sel` accepts, or `None` when there is none. */
  predicate IsFirst<T>(s: seq<T>, sel: T -> bool, r: Option<nat>) {
    match r
    case Some(k) => k < |s| && sel(s[k]) && forall j :: 0 <= j < k ==> !sel(s[j])
    case None => forall j :: 0 <= j < |s| ==> !sel(s[j])
  }

  /** `s.findIndex(sel)`, with `None` for -1; `s.find(sel)` is the element at that position. */
  function FindFirst<T>(s: seq<T>, sel: T -> bool): (r: Option<nat>)
    ensures IsFirst(s, sel, r)
  {
    if s == [] then None
    else if sel(s[0]) then Some(0)
    else match FindFirst(s[1..], sel)
      case None => None
      case Some(k) => Some(k + 1)
  }

  /** At most one position is the first accepted one. */
  lemma FindFirstUnique<T>(s: seq<T>, sel: T -> bool, r: Option<nat>)
    requires IsFirst(s, sel, r)
    ensures r == FindFirst(s, sel)
  {
  }

  /** `s.map(x => sel(x) ? f(x) : x)`: rewrites the selected records in place. */
  function MapWhere<T>(s: seq<T>, sel: T -> bool, f: T -> T): (r: seq<T>)
    ensures |r| == |s|
    ensures forall i :: 0 <= i < |s| ==> r[i] == if sel(s[i]) then f(s[i]) else s[i]
  {
    seq(|s|, i requires 0 <= i < |s| => if sel(s[i]) then f(s[i]) else s[i])
  }

  /**
   * Rewriting twice with a rewrite that undoes itself and keeps the selection
   * restores the sequence.
   */
  lemma MapWhereTwice<T>(s: seq<T>, sel: T -> bool, f: T -> T)
    requires forall x :: sel(x) ==> sel(f(x)) && f(f(x)) == x
    ensures MapWhere(MapWhere(s, sel, f), sel, f) == s
  {
  }

  /** The keys of `s` never decrease from left to right. */
  predicate SortedBy<T>(s: seq<T>, key: T -> real) {
    forall i, j :: 0 <= i < j < |s| ==> key(s[i]) <= key(s[j])
  }

  /** Inserts `x` in front of the first element whose key is not smaller. */
  function Insert<T>(x: T, s: seq<T>, key: T -> real): seq<T> {
    if s == [] || key(x) <= key(s[0]) then [x] + s else [s[0]] + Insert(x, s[1..], key)
  }

  /**
   * `s.sort((a, b) => key(a) - key(b))`, written as an insertion sort; like
   * JavaScript's sort it is stable.
   */
  function SortBy<T>(s: seq<T>, key: T -> real): seq<T> {
    if s == [] then [] else Insert(s[0], SortBy(s[1..], key), key)
  }

  lemma {:induction false} InsertPermutes<T>(x: T, s: seq<T>, key: T -> real)
    ensures multiset(Insert(x, s, key)) == multiset(s) + multiset{x}
  {
    if s != [] && key(x) > key(s[0]) {
      InsertPermutes(x, s[1..], key);
      assert s == [s[0]] + s[1..];
    }
  }

  lemma {:induction false} InsertSorted<T>(x: T, s: seq<T>, key: T -> real)
    requires SortedBy(s, key)
    ensures SortedBy(Insert(x, s, key), key)
  {
    if s != [] && key(x) > key(s[0]) {
      var rest := Insert(x, s[1..], key);
      InsertSorted(x, s[1..], key);
      InsertPermutes(x, s[1..], key);
      forall j | 0 <= j < |rest| ensures key(s[0]) <= key(rest[j]) {
        assert rest[j] in multiset(rest);
        assert rest[j] == x || rest[j] in s[1..];
      }
    }
  }

  /** The sorted sequence is a permutation of the input. */
  lemma {:induction false} SortByPermutes<T>(s: seq<T>, key: T -> real)
    ensures multiset(SortBy(s, key)) == multiset(s)
  {
    if s != [] {
      SortByPermutes(s[1..], key);
      InsertPermutes(s[0], SortBy(s[1..], key), key);
      assert s == [s[0]] + s[1..];
    }
  }

  /** The sorted sequence is ordered by the key. */
  lemma {:induction false} SortBySorted<T>(s: seq<T>, key: T -> real)
    ensures SortedBy(SortBy(s, key), key)
  {
    if s != [] {
      SortBySorted(s[1..], key);
      InsertSorted(s[0], SortBy(s[1..], key), key);
    }
  }

  /** `s` without position `i`; an index outside `s` removes nothing (`filter((_, j) => j !== i)`). */
  function RemoveAt<T>(s: seq<T>, i: int): (r: seq<T>)
    ensures 0 <= i < |s| ==> |r| == |s| - 1
    ensures 0 <= i < |s| ==> forall j :: 0 <= j < i ==> r[j] == s[j]
    ensures 0 <= i < |s| ==> forall j :: i <= j < |r| ==> r[j] == s[j + 1]
    ensures !(0 <= i < |s|) ==> r == s
  {
    if 0 <= i < |s| then s[..i] + s[i + 1..] else s
  }

  /** The selector `x => key(x) !== k`. */
  function ChaveDiferente<T>(key: T -> int, k: int): T -> bool {
    (x: T) => key(x) != k
  }

  /** `s.filter(x => key(x) !== k)`: delete by id. */
  function RemoverPorChave<T>(s: seq<T>, key: T -> int, k: int): (r: seq<T>)
    ensures |r| <= |s|
    ensures forall i :: 0 <= i < |r| ==> r[i] in s && key(r[i]) != k
    ensures forall i :: 0 <= i < |s| && key(s[i]) != k ==> s[i] in r
  {
    Filter(s, ChaveDiferente(key, k))
  }

  /** Deleting works on each part separately, so the remaining elements keep their order. */
  lemma RemoverPorChaveConcat<T>(a: seq<T>, b: seq<T>, key: T -> int, k: int)
    ensures RemoverPorChave(a + b, key, k) == RemoverPorChave(a, key, k) + RemoverPorChave(b, key, k)
  {
    FilterAppend(a, b, ChaveDiferente(key, k));
  }

  /** Deleting an id nothing has changes nothing. */
  lemma RemoverPorChaveAusente<T>(s: seq<T>, key: T -> int, k: int)
    requires forall i :: 0 <= i < |s| ==> key(s[i]) != k
    ensures RemoverPorChave(s, key, k) == s
  {
    FilterKeepsAll(s, ChaveDiferente(key, k));
  }

  /** Deleting keeps every other element as often as it was there and none with the id. */
  lemma RemoverPorChaveConta<T>(s: seq<T>, key: T -> int, k: int, x: T)
    ensures multiset(RemoverPorChave(s, key, k))[x] == if key(x) != k then multiset(s)[x] else 0
  {
    FilterCount(s, ChaveDiferente(key, k), x);
  }
}
