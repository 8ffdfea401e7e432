/**
 * The part of MongoDB's collection semantics the core uses. A collection is
 * the sequence of its documents in natural (insertion) order; a filter on one
 * field is a key function and the value it must equal.
 *   - `find_one(filter)`, `update_one(filter, ..)` and `delete_one(filter)` act
 *     on the FIRST matching document, or do nothing when none matches;
 *   - `find(filter)` yields every matching document in natural order;
 *   - `insert_one` appends and checks no uniqueness of its own.
 */
module Mongo {
  import opened Wrappers

  /** Position of the first document whose key equals `k`. */
  function FirstIndex<T, K(==)>(docs: seq<T>, key: T -> K, k: K): (r: Option<nat>)
    ensures r.None? <==> forall i :: 0 <= i < |docs| ==> key(docs[i]) != k
    ensures r.Some? ==> r.value < |docs| && key(docs[r.value]) == k
    ensures r.Some? ==> forall j :: 0 <= j < r.value ==> key(docs[j]) != k
    decreases |docs|
  {
    if |docs| == 0 then None
    else if key(docs[0]) == k then Some(0)
    else
      match FirstIndex(docs[1..], key, k)
      case None => None
      case Some(i) => Some(i + 1)
  }

  /** `find_one({field: k})`. */
  function FindOne<T, K(==)>(docs: seq<T>, key: T -> K, k: K): (r: Option<T>)
    ensures r.None? <==> forall i :: 0 <= i < |docs| ==> key(docs[i]) != k
    ensures r.Some? ==> r.value in docs && key(r.value) == k
  {
    match FirstIndex(docs, key, k)
    case None => None
    case Some(i) => Some(docs[i])
  }

  /** `find({field: k})`, drained in natural order. */
  function Find<T, K(==)>(docs: seq<T>, key: T -> K, k: K): (r: seq<T>)
    ensures forall i :: 0 <= i < |r| ==> r[i] in docs && key(r[i]) == k
    ensures forall i :: 0 <= i < |docs| && key(docs[i]) == k ==> docs[i] in r
    ensures |r| <= |docs|
    decreases |docs|
  {
    if |docs| == 0 then []
    else
      Find(docs[..|docs| - 1], key, k)
      + (if key(docs[|docs| - 1]) == k then [docs[|docs| - 1]] else [])
  }

  /** `delete_one({field: k})`. */
  function DeleteOne<T, K(==)>(docs: seq<T>, key: T -> K, k: K): seq<T>
  {
    match FirstIndex(docs, key, k)
    case None => docs
    case Some(i) => docs[..i] + docs[i + 1..]
  }

  /** No two documents share a key value: the collection behaves as a map. */
  ghost predicate UniqueKeys<T, K>(docs: seq<T>, key: T -> K) {
    forall i, j :: 0 <= i < j < |docs| ==> key(docs[i]) != key(docs[j])
  }

  /** The first match depends only on the keys, not on the rest of each document. */
  lemma {:induction false} FirstIndexOnlyReadsKeys<T, K>(a: seq<T>, b: seq<T>, key: T -> K, k: K)
    requires |a| == |b|
    requires forall i :: 0 <= i < |a| ==> key(a[i]) == key(b[i])
    ensures FirstIndex(a, key, k) == FirstIndex(b, key, k)
    decreases |a|
  {
    if |a| > 0 && key(a[0]) != k {
      FirstIndexOnlyReadsKeys(a[1..], b[1..], key, k);
    }
  }

  /**
   * Replacing the first match of `k` by a document with the same key: a
   * lookup of `k` now yields the new document, a lookup of any other key is
   * unchanged.
   */
  lemma FindOneAfterReplace<T, K>(docs: seq<T>, key: T -> K, k: K, x: T, k': K)
    requires FirstIndex(docs, key, k).Some?
    requires key(x) == k
    ensures var r := docs[FirstIndex(docs, key, k).value := x];
      FindOne(r, key, k') == if k' == k then Some(x) else FindOne(docs, key, k')
  {
    var i := FirstIndex(docs, key, k).value;
    var r := docs[i := x];
    FirstIndexOnlyReadsKeys(r, docs, key, k');
  }

  /** A lookup after `insert_one(x)`: an older match wins, otherwise `x` if it matches. */
  lemma {:induction false} FindOneAfterInsert<T, K>(docs: seq<T>, key: T -> K, k: K, x: T)
    ensures FindOne(docs + [x], key, k)
         == if FindOne(docs, key, k).Some? then FindOne(docs, key, k)
            else if key(x) == k then Some(x) else None
    decreases |docs|
  {
    if |docs| > 0 && key(docs[0]) != k {
      assert (docs + [x])[1..] == docs[1..] + [x];
      FindOneAfterInsert(docs[1..], key, k, x);
      FirstIndexAfterInsertStep(docs, key, k, x);
    }
  }

  lemma FirstIndexAfterInsertStep<T, K>(docs: seq<T>, key: T -> K, k: K, x: T)
    requires |docs| > 0 && key(docs[0]) != k
    ensures FindOne(docs + [x], key, k) == FindOne(docs[1..] + [x], key, k)
    ensures FindOne(docs, key, k) == FindOne(docs[1..], key, k)
  {
    assert (docs + [x])[1..] == docs[1..] + [x];
  }

  /** With unique keys, `find_one` returns precisely the document holding that key. */
  lemma FindOneUnique<T, K>(docs: seq<T>, key: T -> K, i: nat)
    requires UniqueKeys(docs, key)
    requires i < |docs|
    ensures FindOne(docs, key, key(docs[i])) == Some(docs[i])
  {
    var j := FirstIndex(docs, key, key(docs[i])).value;
    assert !(j < i);
  }

  /**
   * With unique keys, `delete_one({field: k})` removes the only match of `k`:
   * no document with key `k` is left and every other key keeps its document.
   */
  lemma DeleteOneUnique<T, K>(docs: seq<T>, key: T -> K, k: K, k': K)
    requires UniqueKeys(docs, key)
    ensures FindOne(DeleteOne(docs, key, k), key, k).None?
    ensures k' != k ==> FindOne(DeleteOne(docs, key, k), key, k') == FindOne(docs, key, k')
    ensures UniqueKeys(DeleteOne(docs, key, k), key)
  {
    var r := DeleteOne(docs, key, k);
    match FirstIndex(docs, key, k)
    case None =>
    case Some(i) =>
      assert r == docs[..i] + docs[i + 1..];
      assert forall j :: 0 <= j < |r| ==> r[j] == (if j < i then docs[j] else docs[j + 1]);
      if k' != k {
        match FirstIndex(docs, key, k')
        case None =>
        case Some(j) =>
          var j' := if j < i then j else j - 1;
          assert r[j'] == docs[j];
          FindOneUnique(r, key, j');
      }
  }

  /** `insert_one` of a document whose key is absent keeps keys unique. */
  lemma InsertFreshKeepsUnique<T, K>(docs: seq<T>, key: T -> K, x: T)
    requires UniqueKeys(docs, key)
    requires FindOne(docs, key, key(x)).None?
    ensures UniqueKeys(docs + [x], key)
  {
  }

  /** Replacing a document by one with the same key keeps keys unique. */
  lemma ReplaceKeepsUnique<T, K>(docs: seq<T>, key: T -> K, i: nat, x: T)
    requires UniqueKeys(docs, key)
    requires i < |docs| && key(x) == key(docs[i])
    ensures UniqueKeys(docs[i := x], key)
  {
  }
}
