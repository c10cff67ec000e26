/** Optional values (Java `null` as `None`) and pass/fail outcomes (a thrown exception as `Fail`). */
module Wrappers {

  datatype Option<+T> = None | Some(value: T)

  datatype Outcome<+E> = Pass | Fail(error: E)

  /** The present values of `s`, in order: what a run of `addIfNotNull` calls appends. */
  function Somes<T>(s: seq<Option<T>>): seq<T>
  {
    if s == [] then [] else Somes(s[..|s| - 1]) + (if s[|s| - 1].Some? then [s[|s| - 1].value] else [])
  }

  /** The positions of the present values of `s`, in increasing order. */
  function PresentPositions<T>(s: seq<Option<T>>): seq<nat>
  {
    if s == [] then [] else PresentPositions(s[..|s| - 1]) + (if s[|s| - 1].Some? then [|s| - 1] else [])
  }

  /**
   * `Somes(s)` keeps exactly the present values of `s`, each once, in their
   * original order: its k-th element is the value at the k-th present
   * position, the positions strictly increase, and no present position is
   * skipped.
   */
  lemma {:induction false} SomesKeepsPresentInOrder<T>(s: seq<Option<T>>)
    ensures |Somes(s)| == |PresentPositions(s)|
    ensures forall k :: 0 <= k < |PresentPositions(s)| ==>
      PresentPositions(s)[k] < |s| && s[PresentPositions(s)[k]] == Some(Somes(s)[k])
    ensures forall k, l :: 0 <= k < l < |PresentPositions(s)| ==> PresentPositions(s)[k] < PresentPositions(s)[l]
    ensures forall i :: 0 <= i < |s| && s[i].Some? ==> i in PresentPositions(s)
  {
    if s != [] {
      var init := s[..|s| - 1];
      SomesKeepsPresentInOrder(init);
      forall i | 0 <= i < |s| && s[i].Some? ensures i in PresentPositions(s) {
        if i < |s| - 1 {
          assert init[i] == s[i];
        }
      }
    }
  }

  /** Extending a prefix of `s` by one element extends its present values by that element's value, if any. */
  lemma SomesStep<T>(s: seq<Option<T>>, i: nat)
    requires i < |s|
    ensures Somes(s[..i + 1]) == Somes(s[..i]) + (if s[i].Some? then [s[i].value] else [])
  {
    assert s[..i + 1][..i] == s[..i];
  }

  /** The elements of a sequence, as a set. */
  function Elements(s: seq<nat>): set<nat>
  {
    set x | x in s
  }

  /** A strictly increasing sequence holds as many distinct elements as it is long. */
  lemma {:induction false} IncreasingElementCount(s: seq<nat>)
    requires forall k, l :: 0 <= k < l < |s| ==> s[k] < s[l]
    ensures |Elements(s)| == |s|
  {
    if s != [] {
      var init, last := s[..|s| - 1], s[|s| - 1];
      assert s == init + [last];
      IncreasingElementCount(init);
      assert last !in init by {
        forall k | 0 <= k < |init| ensures init[k] != last {
          assert init[k] == s[k];
        }
      }
      assert Elements(s) == Elements(init) + {last};
    }
  }
}
