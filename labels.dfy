/**
 * The label arithmetic of `add_issue_labels` (server.py:482-484) and
 * `remove_issue_labels` (server.py:497-499): a duplicate-free union, and
 * the current labels with the given ones filtered out.
 */
module Labels {

  /** No label occurs twice. */
  predicate NoDuplicates(xs: seq<string>)
  {
    forall i, j :: 0 <= i < j < |xs| ==> xs[i] != xs[j]
  }

  /**
   * `list(set(current + added))`: every label of either list exactly once.
   * Python leaves the order to the set; this loop keeps first occurrences.
   */
  method Union(current: seq<string>, added: seq<string>) returns (merged: seq<string>)
    ensures NoDuplicates(merged)
    ensures forall x :: x in merged <==> x in current || x in added
  {
    var all := current + added;
    merged := [];
    for i := 0 to |all|
      invariant NoDuplicates(merged)
      invariant forall x :: x in merged <==> x in all[..i]
    {
      assert all[..i + 1] == all[..i] + [all[i]];
      if all[i] !in merged {
        merged := merged + [all[i]];
      }
    }
    assert all[..|all|] == all;
  }

  /** `[l for l in current if l not in labels]`. */
  function Without(current: seq<string>, labels: seq<string>): seq<string>
  {
    if current == [] then []
    else (if current[0] in labels then [] else [current[0]]) + Without(current[1..], labels)
  }

  /**
   * Each label to remove is gone, and every other one stays exactly as
   * often as it was there.
   */
  lemma {:induction false} WithoutMeaning(current: seq<string>, labels: seq<string>)
    ensures forall x :: multiset(Without(current, labels))[x] == if x in labels then 0 else multiset(current)[x]
    ensures forall x :: x in Without(current, labels) <==> x in current && x !in labels
  {
    if current != [] {
      WithoutMeaning(current[1..], labels);
      assert current == [current[0]] + current[1..];
    }
  }

  /** Filtering distributes over concatenation, so the survivors keep their order. */
  lemma {:induction false} WithoutAppend(xs: seq<string>, ys: seq<string>, labels: seq<string>)
    ensures Without(xs + ys, labels) == Without(xs, labels) + Without(ys, labels)
  {
    if xs != [] {
      assert (xs + ys)[0] == xs[0];
      assert (xs + ys)[1..] == xs[1..] + ys;
      WithoutAppend(xs[1..], ys, labels);
      var head := if xs[0] in labels then [] else [xs[0]];
      assert Without(xs + ys, labels) == head + (Without(xs[1..], labels) + Without(ys, labels));
      assert Without(xs, labels) == head + Without(xs[1..], labels);
    } else {
      assert xs + ys == ys;
    }
  }

  /** Removing labels none of which is present changes nothing. */
  lemma {:induction false} WithoutAbsent(current: seq<string>, labels: seq<string>)
    requires forall x :: x in labels ==> x !in current
    ensures Without(current, labels) == current
  {
    if current != [] {
      assert current[0] in current;
      assert forall x :: x in current[1..] ==> x in current;
      WithoutAbsent(current[1..], labels);
    }
  }

  /** Removing the same labels twice is removing them once. */
  lemma WithoutIdempotent(current: seq<string>, labels: seq<string>)
    ensures Without(Without(current, labels), labels) == Without(current, labels)
  {
    WithoutMeaning(current, labels);
    WithoutAbsent(Without(current, labels), labels);
  }

  /** A duplicate-free list stays duplicate-free when labels are removed from it. */
  lemma {:induction false} WithoutKeepsNoDuplicates(current: seq<string>, labels: seq<string>)
    requires NoDuplicates(current)
    ensures NoDuplicates(Without(current, labels))
  {
    if current != [] {
      var rest := current[1..];
      assert NoDuplicates(rest) by {
        forall i, j | 0 <= i < j < |rest| ensures rest[i] != rest[j] {
          assert rest[i] == current[i + 1] && rest[j] == current[j + 1];
        }
      }
      WithoutKeepsNoDuplicates(rest, labels);
      WithoutMeaning(rest, labels);
      assert current[0] !in rest;
    }
  }

  /**
   * Adding labels and then removing the same ones leaves exactly the
   * original labels that were not among them, each once.
   */
  lemma AddThenRemove(current: seq<string>, labels: seq<string>, merged: seq<string>)
    requires NoDuplicates(merged)
    requires forall x :: x in merged <==> x in current || x in labels
    ensures NoDuplicates(Without(merged, labels))
    ensures forall x :: x in Without(merged, labels) <==> x in current && x !in labels
  {
    WithoutKeepsNoDuplicates(merged, labels);
    WithoutMeaning(merged, labels);
  }
}
