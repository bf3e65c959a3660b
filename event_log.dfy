// The bounded newest-first log both test pages keep in React state
// (src/app/mouse-test/page.tsx and src/app/test-driving/page.tsx): a new entry goes in
// front of the first nine older ones, so the log never holds more than ten.

module EventLog {

  /** How many entries the log keeps. */
  const Capacity: nat := 10

  function MinNat(a: nat, b: nat): nat
  {
    if a <= b then a else b
  }

  /** `[entry, ...prev.slice(0, 9)]`. */
  function Logged<T>(log: seq<T>, entry: T): (r: seq<T>)
    ensures |r| == MinNat(|log| + 1, Capacity)
    ensures r[0] == entry
    ensures forall i :: 1 <= i < |r| ==> r[i] == log[i - 1]
  {
    [entry] + log[..MinNat(|log|, Capacity - 1)]
  }

  /** The log after the entries arrive in order, starting from an empty log. */
  function LogAll<T>(entries: seq<T>): seq<T>
  {
    if |entries| == 0 then [] else Logged(LogAll(entries[..|entries| - 1]), entries[|entries| - 1])
  }

  function Reverse<T>(s: seq<T>): (r: seq<T>)
    ensures |r| == |s|
    ensures forall i :: 0 <= i < |s| ==> r[i] == s[|s| - 1 - i]
  {
    if |s| == 0 then [] else [s[|s| - 1]] + Reverse(s[..|s| - 1])
  }

  /**
   * The log always holds the most recent entries, newest first: after any run of entries
   * it is the reversed run cut to the last ten.
   */
  lemma {:induction false} LogAllIsNewestFirst<T>(entries: seq<T>)
    ensures LogAll(entries) == Reverse(entries)[..MinNat(|entries|, Capacity)]
  {
    if |entries| > 0 {
      var init := entries[..|entries| - 1];
      LogAllIsNewestFirst(init);
      var r := LogAll(entries);
      var want := Reverse(entries)[..MinNat(|entries|, Capacity)];
      assert |r| == |want|;
      forall i | 0 <= i < |r|
        ensures r[i] == want[i]
      {
        if i > 0 {
          assert r[i] == LogAll(init)[i - 1];
          assert LogAll(init)[i - 1] == Reverse(init)[i - 1];
        }
      }
    }
  }

  /** The log state a page keeps, with its two updates. */
  class Log<T> {
    var entries: seq<T>

    constructor ()
      ensures entries == []
    {
      entries := [];
    }

    /** A listener's `setLog(prev => [entry, ...prev.slice(0, 9)])`. */
    method Add(entry: T)
      modifies this
      ensures entries == Logged(old(entries), entry)
    {
      entries := [entry] + entries[..MinNat(|entries|, Capacity - 1)];
    }

    /** `setLog([])`. */
    method Clear()
      modifies this
      ensures entries == []
    {
      entries := [];
    }
  }
}
