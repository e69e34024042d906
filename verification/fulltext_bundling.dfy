/**
 * The state machine that checks that the text (unsorted) fields of a full-text
 * index form one contiguous run. A field list is read as its sort flags:
 * `true` for a field with a sort order, `false` for a text field.
 */
module FulltextBundling {
  import opened Wrappers

  datatype BundleState =
    | Init            // nothing read yet
    | SortParamHead   // only sorted fields so far
    | TextFieldBundle // inside the one run of text fields
    | SortParamTail   // sorted fields after the text run

  /**
   * One transition on reading a field. `None` is the violation: a text field
   * after the tail, which would start a second run.
   */
  function Step(state: BundleState, sorted: bool): (next: Option<BundleState>)
    ensures next.None? <==> state == SortParamTail && !sorted
    ensures next != Some(Init)
    ensures next.Some? ==> (next.value == TextFieldBundle <==> !sorted)
  {
    match state
    case Init | SortParamHead => if sorted then Some(SortParamHead) else Some(TextFieldBundle)
    case TextFieldBundle => if sorted then Some(SortParamTail) else Some(TextFieldBundle)
    case SortParamTail => if sorted then Some(SortParamTail) else None
  }

  /** The machine run from `Init` over `flags`; `None` once a violation was met. */
  function Run(flags: seq<bool>): Option<BundleState>
  {
    if flags == [] then Some(Init)
    else
      match Run(flags[..|flags| - 1])
      case None => None
      case Some(state) => Step(state, flags[|flags| - 1])
  }

  ghost predicate HasUnsorted(flags: seq<bool>) {
    exists i :: 0 <= i < |flags| && !flags[i]
  }

  ghost predicate HasUnsortedThenSorted(flags: seq<bool>) {
    exists i, j :: 0 <= i < j < |flags| && !flags[i] && flags[j]
  }

  /** A text field, then a sorted one, then a text field again: two separate text runs. */
  ghost predicate HasSplitBundle(flags: seq<bool>) {
    exists i, j, k :: 0 <= i < j < k < |flags| && !flags[i] && flags[j] && !flags[k]
  }

  /** `flags` is sorted* unsorted* sorted*, the text run being `[a, b)`. */
  ghost predicate BundledAt(flags: seq<bool>, a: int, b: int) {
    && 0 <= a <= b <= |flags|
    && (forall i :: 0 <= i < a ==> flags[i])
    && (forall i :: a <= i < b ==> !flags[i])
    && (forall i :: b <= i < |flags| ==> flags[i])
  }

  ghost predicate Bundled(flags: seq<bool>) {
    exists a, b :: BundledAt(flags, a, b)
  }

  /** How each pattern predicate grows when one more flag is read. */
  lemma SnocPatterns(g: seq<bool>, x: bool)
    ensures HasUnsorted(g + [x]) <==> HasUnsorted(g) || !x
    ensures HasUnsortedThenSorted(g + [x]) <==> HasUnsortedThenSorted(g) || (HasUnsorted(g) && x)
    ensures HasSplitBundle(g + [x]) <==> HasSplitBundle(g) || (HasUnsortedThenSorted(g) && !x)
  {
    var f := g + [x];
    var n := |g|;
    assert forall i :: 0 <= i < n ==> f[i] == g[i];
    assert f[n] == x;
    if HasUnsorted(f) {
      var i :| 0 <= i < |f| && !f[i];
      if i < n { assert !g[i]; }
    }
    if HasUnsortedThenSorted(f) {
      var i, j :| 0 <= i < j < |f| && !f[i] && f[j];
      if j < n { assert !g[i] && g[j]; } else { assert !g[i]; }
    }
    if HasUnsortedThenSorted(g) && x {
      var i, j :| 0 <= i < j < |g| && !g[i] && g[j];
      assert !f[i] && f[j];
    }
    if HasUnsorted(g) && x {
      var i :| 0 <= i < |g| && !g[i];
      assert !f[i] && f[n];
    }
    if HasSplitBundle(f) {
      var i, j, k :| 0 <= i < j < k < |f| && !f[i] && f[j] && !f[k];
      if k < n { assert !g[i] && g[j] && !g[k]; } else { assert !g[i] && g[j]; }
    }
    if HasSplitBundle(g) {
      var i, j, k :| 0 <= i < j < k < |g| && !g[i] && g[j] && !g[k];
      assert !f[i] && f[j] && !f[k];
    }
    if HasUnsortedThenSorted(g) && !x {
      var i, j :| 0 <= i < j < |g| && !g[i] && g[j];
      assert !f[i] && f[j] && !f[n];
    }
  }

  /**
   * What each outcome of the machine means about the flags read: it fails exactly
   * on a split text run, and each state names the shape of the prefix so far.
   */
  lemma {:induction false} RunCharacterization(flags: seq<bool>)
    ensures Run(flags).None? <==> HasSplitBundle(flags)
    ensures Run(flags) == Some(Init) <==> flags == []
    ensures Run(flags) == Some(SortParamHead) <==> flags != [] && !HasUnsorted(flags)
    ensures Run(flags) == Some(TextFieldBundle) <==> HasUnsorted(flags) && !HasUnsortedThenSorted(flags)
    ensures Run(flags) == Some(SortParamTail) <==> HasUnsortedThenSorted(flags) && !HasSplitBundle(flags)
  {
    if flags != [] {
      var g, x := flags[..|flags| - 1], flags[|flags| - 1];
      assert flags == g + [x];
      RunCharacterization(g);
      SnocPatterns(g, x);
    }
  }

  /** A bundled list has no split text run. */
  lemma BundledHasNoSplit(flags: seq<bool>, a: int, b: int)
    requires BundledAt(flags, a, b)
    ensures !HasSplitBundle(flags)
  {
  }

  /** A list without a split text run is bundled. */
  lemma {:induction false} NoSplitIsBundled(flags: seq<bool>)
    requires !HasSplitBundle(flags)
    ensures Bundled(flags)
  {
    if flags == [] {
      assert BundledAt(flags, 0, 0);
    } else {
      var n := |flags| - 1;
      var g, x := flags[..n], flags[n];
      assert flags == g + [x];
      SnocPatterns(g, x);
      NoSplitIsBundled(g);
      var a, b :| BundledAt(g, a, b);
      assert forall i :: 0 <= i < n ==> flags[i] == g[i];
      if x {
        assert BundledAt(flags, a, b);
      } else if b == n {
        assert BundledAt(flags, a, b + 1);
      } else if a < b {
        assert !g[a] && g[b];
        assert HasUnsortedThenSorted(g);
      } else {
        assert BundledAt(flags, n, n + 1);
      }
    }
  }

  /** Sorted* unsorted* sorted* is exactly the absence of a split text run. */
  lemma BundledIffNoSplit(flags: seq<bool>)
    ensures Bundled(flags) <==> !HasSplitBundle(flags)
  {
    if Bundled(flags) {
      var a, b :| BundledAt(flags, a, b);
      BundledHasNoSplit(flags, a, b);
    } else if !HasSplitBundle(flags) {
      NoSplitIsBundled(flags);
    }
  }

  /** The machine accepts exactly the bundled flag lists. */
  lemma AcceptsExactlyBundled(flags: seq<bool>)
    ensures Run(flags).Some? <==> Bundled(flags)
  {
    RunCharacterization(flags);
    BundledIffNoSplit(flags);
  }

  /** A split run found in a prefix is a split run of the whole list. */
  lemma SplitInPrefix(flags: seq<bool>, m: nat)
    requires m <= |flags|
    requires HasSplitBundle(flags[..m])
    ensures HasSplitBundle(flags)
  {
  }

  lemma BundlingExamples()
    ensures !HasSplitBundle([])
    ensures !HasSplitBundle([true, true])
    ensures !HasSplitBundle([false, false])
    ensures !HasSplitBundle([true, false, true])
    ensures HasSplitBundle([false, true, false])
  {
    RunCharacterization([]);
    RunCharacterization([true, true]);
    RunCharacterization([false, false]);
    RunCharacterization([true, false, true]);
    RunCharacterization([false, true, false]);
  }
}
