/** A Redis list used as a most-recent-first ring buffer: `lPush` puts a new
    element at the head, `lTrim(key, 0, cap - 1)` keeps the first `cap`, and
    `lRange(key, 0, cap - 1)` read back and reversed gives the history
    oldest-first. Shared by the room chat store (cap 50) and the direct
    message store (cap 100). */
module BoundedHistory {
  import opened Seqs

  function Min(a: nat, b: nat): nat {
    if a <= b then a else b
  }

  /** The first `k` elements, or all of them when there are fewer. */
  function Take<T>(s: seq<T>, k: nat): (r: seq<T>)
    ensures |r| == Min(|s|, k) && r == s[..|r|]
  {
    if |s| <= k then s else s[..k]
  }

  /** `lPush(key, x)`. */
  function LPush<T>(list: seq<T>, x: T): seq<T> {
    [x] + list
  }

  /** `lTrim(key, 0, stop)`. */
  function LTrim<T>(list: seq<T>, stop: nat): seq<T> {
    Take(list, stop + 1)
  }

  /** `lRange(key, 0, stop)`. */
  function LRange<T>(list: seq<T>, stop: nat): seq<T> {
    Take(list, stop + 1)
  }

  /** The stored list after one push: `lPush` then `lTrim(0, cap - 1)`. */
  function Push<T>(list: seq<T>, x: T, cap: nat): seq<T>
    requires cap > 0
  {
    LTrim(LPush(list, x), cap - 1)
  }

  /** What a history read returns: `lRange(0, cap - 1)`, reversed. */
  function History<T>(list: seq<T>, cap: nat): seq<T>
    requires cap > 0
  {
    Reverse(LRange(list, cap - 1))
  }

  /** The stored list after pushing `ms` in order, starting from `list`. */
  function PushAll<T>(list: seq<T>, ms: seq<T>, cap: nat): seq<T>
    requires cap > 0
  {
    if ms == [] then list else Push(PushAll(list, ms[..|ms| - 1], cap), ms[|ms| - 1], cap)
  }

  /** One push never leaves more than `cap` entries, and the pushed element is the head. */
  lemma PushBounded<T>(list: seq<T>, x: T, cap: nat)
    requires cap > 0
    ensures |Push(list, x, cap)| <= cap
    ensures Push(list, x, cap)[0] == x
    ensures Push(list, x, cap)[1..] == Take(list, cap - 1)
  {
  }

  /** A read returns the stored entries newest-last. */
  lemma HistoryOrder<T>(list: seq<T>, cap: nat)
    requires cap > 0 && |list| <= cap
    ensures History(list, cap) == Reverse(list)
  {
  }

  lemma TakeTake<T>(x: T, s: seq<T>, k: nat)
    requires k > 0
    ensures Take([x] + Take(s, k), k) == Take([x] + s, k)
  {
    assert ([x] + s)[..Min(|s| + 1, k)] == [x] + s[..Min(|s| + 1, k) - 1];
  }

  lemma ReverseSnoc<T>(s: seq<T>, x: T)
    ensures Reverse(s + [x]) == [x] + Reverse(s)
  {
    var a, b := Reverse(s + [x]), [x] + Reverse(s);
    assert forall i :: 0 <= i < |a| ==> a[i] == b[i];
  }

  lemma ReverseAppend<T>(a: seq<T>, b: seq<T>)
    ensures Reverse(a + b) == Reverse(b) + Reverse(a)
  {
    var l, r := Reverse(a + b), Reverse(b) + Reverse(a);
    assert forall i :: 0 <= i < |l| ==> l[i] == r[i];
  }

  /** The last `k` elements, or all of them when there are fewer. */
  function Last<T>(s: seq<T>, k: nat): (r: seq<T>)
    ensures |r| == Min(|s|, k)
  {
    s[|s| - Min(|s|, k)..]
  }

  lemma ReverseTakeReverse<T>(s: seq<T>, k: nat)
    ensures Reverse(Take(Reverse(s), k)) == Last(s, k)
  {
    var l, r := Reverse(Take(Reverse(s), k)), Last(s, k);
    forall j | 0 <= j < |l| ensures l[j] == r[j] {
      var n, m := |s|, Min(|s|, k);
      assert l[j] == Take(Reverse(s), k)[m - 1 - j] == Reverse(s)[m - 1 - j] == s[n - m + j];
    }
  }

  /** Pushing `ms` keeps the newest `cap` of them, newest first, in front of the old list. */
  lemma {:induction false} PushAllTakes<T>(list: seq<T>, ms: seq<T>, cap: nat)
    requires cap > 0 && |list| <= cap
    ensures PushAll(list, ms, cap) == Take(Reverse(ms) + list, cap)
    decreases |ms|
  {
    if ms == [] {
      assert Reverse(ms) + list == list;
    } else {
      var init, x := ms[..|ms| - 1], ms[|ms| - 1];
      PushAllTakes(list, init, cap);
      TakeTake(x, Reverse(init) + list, cap);
      assert ms == init + [x];
      ReverseSnoc(init, x);
      assert [x] + (Reverse(init) + list) == Reverse(ms) + list;
    }
  }

  /** After pushes `ms` onto a stored list, a read returns the newest `cap`
      messages of the old history followed by `ms`, in send order. */
  lemma HistoryAfterPushes<T>(list: seq<T>, ms: seq<T>, cap: nat)
    requires cap > 0 && |list| <= cap
    ensures History(PushAll(list, ms, cap), cap) == Last(Reverse(list) + ms, cap)
  {
    PushAllTakes(list, ms, cap);
    ReverseAppend(Reverse(list), ms);
    ReverseReverse(list);
    ReverseTakeReverse(Reverse(list) + ms, cap);
  }

  /** From an empty list: the last `min(n, cap)` of `n` sends, in send order. */
  lemma HistoryOfFreshList<T>(ms: seq<T>, cap: nat)
    requires cap > 0
    ensures History(PushAll([], ms, cap), cap) == ms[|ms| - Min(|ms|, cap)..]
    ensures |PushAll([], ms, cap)| <= cap
  {
    HistoryAfterPushes([], ms, cap);
    assert Reverse<T>([]) + ms == ms;
    PushAllTakes([], ms, cap);
  }

  /** A single push onto a list within the cap: the history gains the
      element at its end, dropping its oldest entry once full. */
  lemma PushOne<T>(list: seq<T>, x: T, cap: nat)
    requires cap > 0 && |list| <= cap
    ensures History(Push(list, x, cap), cap) == Last(Reverse(list) + [x], cap)
    ensures var h := History(Push(list, x, cap), cap); |h| > 0 && h[|h| - 1] == x
  {
    HistoryAfterPushes(list, [x], cap);
    assert PushAll(list, [x], cap) == Push(list, x, cap) by {
      assert [x][..0] == [];
    }
  }
}
