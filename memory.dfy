/**
 * The bounded per-session memory of src/memory.py: a map from session key to
 * a FIFO window of at most `maxLen` texts (a `defaultdict` of
 * `deque(maxlen=maxLen)`).
 */
module Memory {
  import opened Wrappers

  type Store = map<string, seq<string>>

  /** The specification of a bounded window: the last `n` elements of `s`. */
  function LastN(s: seq<string>, n: nat): (r: seq<string>)
    ensures |r| == if |s| <= n then |s| else n
  {
    if |s| <= n then s else s[|s| - n..]
  }

  /** A window that can hold all of `tail` ends with it. */
  lemma LastNKeepsTail(s: seq<string>, tail: seq<string>, n: nat)
    requires |tail| <= n
    ensures var w := LastN(s + tail, n);
            |tail| <= |w| && w[|w| - |tail|..] == tail
  {
    var x := s + tail;
    var w := LastN(x, n);
    assert w == x[|x| - |w|..];
    assert w[|w| - |tail|..] == x[|s|..];
  }

  /** `deque.append` on a deque with `maxlen = n`: drop the oldest entry when full. */
  function Push(w: seq<string>, t: string, n: nat): (r: seq<string>)
    requires |w| <= n
    ensures r == LastN(w + [t], n)
  {
    if n == 0 then []
    else if |w| == n then w[1..] + [t]
    else w + [t]
  }

  /** Every stored window respects the capacity. */
  ghost predicate Bounded(store: Store, n: nat)
  {
    forall k :: k in store ==> |store[k]| <= n
  }

  /** The window of session `k`; a session never seen reads as empty. */
  function WindowOf(store: Store, k: string): seq<string>
  {
    if k in store then store[k] else []
  }

  /** The `defaultdict` lookup: an unseen key gets an empty window. */
  function Touch(store: Store, k: string): (r: Store)
    ensures r.Keys == store.Keys + {k}
    ensures forall j :: WindowOf(r, j) == WindowOf(store, j)
  {
    if k in store then store else store[k := []]
  }

  /** The store after `add(k, t)`. */
  function AddTo(store: Store, k: string, t: string, n: nat): (r: Store)
    requires Bounded(store, n)
    ensures Bounded(r, n)
    ensures r.Keys == store.Keys + {k}
    ensures k in r && r[k] == LastN(WindowOf(store, k) + [t], n)
    ensures forall j :: j != k ==> WindowOf(r, j) == WindowOf(store, j)
  {
    store[k := Push(WindowOf(store, k), t, n)]
  }

  /** The window after appending every text of `ts`, one `add` at a time. */
  function PushAll(w: seq<string>, ts: seq<string>, n: nat): seq<string>
    requires |w| <= n
    decreases |ts|
  {
    if ts == [] then w else PushAll(Push(w, ts[0], n), ts[1..], n)
  }

  /** Dropping a prefix that still leaves at least `n` elements (or no
      prefix at all) does not change the last `n`. */
  lemma LastNOfSuffix(x: seq<string>, i: nat, n: nat)
    requires i <= |x| && (i == 0 || |x| - i >= n)
    ensures LastN(x[i..], n) == LastN(x, n)
  {
    var y := x[i..];
    if i == 0 {
      assert y == x;
    } else if |y| > n {
      assert y[|y| - n..] == x[|x| - n..];
    } else {
      assert y == x[|x| - n..];
    }
  }

  /** Whatever follows, one `add` loses nothing of the last `n` texts. */
  lemma PushThen(w: seq<string>, t: string, rest: seq<string>, n: nat)
    requires |w| <= n
    ensures LastN(Push(w, t, n) + rest, n) == LastN(w + ([t] + rest), n)
  {
    var w', s := Push(w, t, n), w + [t];
    var x := s + rest;
    assert x == w + ([t] + rest);
    var i := |s| - |w'|;
    assert w' == s[i..];
    assert w' + rest == x[i..];
    LastNOfSuffix(x, i, n);
  }

  /** A run of `add`s keeps exactly the last `n` texts of all that was added. */
  lemma {:induction false} PushAllKeepsLastN(w: seq<string>, ts: seq<string>, n: nat)
    requires |w| <= n
    ensures PushAll(w, ts, n) == LastN(w + ts, n)
    decreases |ts|
  {
    if ts != [] {
      PushAllKeepsLastN(Push(w, ts[0], n), ts[1..], n);
      PushThen(w, ts[0], ts[1..], n);
      assert [ts[0]] + ts[1..] == ts;
    }
  }

  /** With capacity `n`, after `n + 1` adds to a fresh session the window holds
      the last `n` texts, oldest first: the first one was evicted. */
  lemma EvictsOldestFirst(ts: seq<string>, n: nat)
    requires |ts| == n + 1
    ensures PushAll([], ts, n) == ts[1..]
  {
    PushAllKeepsLastN([], ts, n);
    assert [] + ts == ts;
  }

  /** After `add(k, t)` the newest entry of `k` is `t` (unless the capacity
      is 0), the window stays bounded, and every other session is untouched. */
  lemma AddToNewestLast(store: Store, k: string, t: string, n: nat)
    requires Bounded(store, n) && n > 0
    ensures var w := WindowOf(AddTo(store, k, t, n), k);
            && w != [] && w[|w| - 1] == t && |w| <= n
            && w[..|w| - 1] == LastN(WindowOf(store, k), n - 1)
  {
    var old_w := WindowOf(store, k);
    var w := WindowOf(AddTo(store, k, t, n), k);
    var s := old_w + [t];
    assert w == s[|s| - |w|..];
    assert w[..|w| - 1] == old_w[|old_w| - (|w| - 1)..];
  }

  class ShortTermMemory {
    const maxLen: nat
    var store: Store

    ghost predicate Valid()
      reads this
    {
      Bounded(store, maxLen)
    }

    /** The window of session `k`, oldest entry first. */
    function Window(k: string): seq<string>
      reads this
    {
      WindowOf(store, k)
    }

    constructor (maxLen: nat := 4)
      ensures Valid()
      ensures this.maxLen == maxLen && store == map[]
    {
      this.maxLen := maxLen;
      store := map[];
    }

    /** `add`: append `text` to the session's window, evicting the oldest
        entry when the window is full; other sessions are unchanged. */
    method Add(sessionId: string, text: string)
      requires Valid()
      modifies this
      ensures Valid()
      ensures store == old(store)[sessionId := LastN(old(Window(sessionId)) + [text], maxLen)]
    {
      var w := if sessionId in store then store[sessionId] else [];
      store := store[sessionId := Push(w, text, maxLen)];
    }

    /** `get_recent`: `[]` for no session; otherwise a copy of the session's
        window, oldest first. Looking up an unseen session creates its empty
        window, as the `defaultdict` does; no stored text changes. */
    method GetRecent(sessionId: Option<string>) returns (recent: seq<string>)
      requires Valid()
      modifies this
      ensures Valid()
      ensures sessionId.None? ==> recent == [] && store == old(store)
      ensures sessionId.Some? ==>
                && recent == old(Window(sessionId.value))
                && store == Touch(old(store), sessionId.value)
    {
      if sessionId.None? {
        return [];
      }
      var k := sessionId.value;
      if k !in store {
        store := store[k := []];
      }
      recent := store[k];
    }
  }
}
