/**
 The finalizer list of a job.
 Models the list handling of AddResourceFinalizer and RemoveResourceFinalizer in pkg/kube/client.go.
 */
module Finalizers {

  const HPC_FINALIZER := "hpc-sentinel/finalizer"

  /** `strings.Join(list, ",")`. */
  function Join(list: seq<string>): string {
    if list == [] then ""
    else if |list| == 1 then list[0]
    else list[0] + "," + Join(list[1..])
  }

  predicate OccursAt(text: string, pattern: string, i: nat) {
    i + |pattern| <= |text| && text[i..i + |pattern|] == pattern
  }

  /** `strings.Contains(text, pattern)`. */
  predicate Contains(text: string, pattern: string) {
    exists i | 0 <= i <= |text| :: OccursAt(text, pattern, i)
  }

  function AddFinalizer(list: seq<string>): seq<string> {
    if Contains(Join(list), HPC_FINALIZER) then list else list + [HPC_FINALIZER]
  }

  function RemoveFinalizer(list: seq<string>): seq<string> {
    if list == [] then []
    else if list[|list| - 1] != HPC_FINALIZER then RemoveFinalizer(list[..|list| - 1]) + [list[|list| - 1]]
    else RemoveFinalizer(list[..|list| - 1])
  }

  /** The filter loop of `RemoveResourceFinalizer`. */
  method FilterFinalizers(finalizers: seq<string>) returns (newFinalizers: seq<string>)
    ensures newFinalizers == RemoveFinalizer(finalizers)
  {
    newFinalizers := [];
    for i := 0 to |finalizers|
      invariant newFinalizers == RemoveFinalizer(finalizers[..i])
    {
      assert finalizers[..i + 1][..i] == finalizers[..i];
      if finalizers[i] != HPC_FINALIZER {
        newFinalizers := newFinalizers + [finalizers[i]];
      }
    }
    assert finalizers[..|finalizers|] == finalizers;
  }

  lemma OccurrenceHasASide(head: string, tail: string, pattern: string, i: nat)
    requires pattern != [] && ',' !in pattern && OccursAt(head + "," + tail, pattern, i)
    ensures Contains(head, pattern) || Contains(tail, pattern)
  {
    var text := head + "," + tail;
    assert text[|head|] == ',';
    assert forall d | 0 <= d < |pattern| :: pattern[d] == text[i..i + |pattern|][d] == text[i + d];
    if i + |pattern| <= |head| {
      assert head[i..i + |pattern|] == text[i..i + |pattern|];
      assert OccursAt(head, pattern, i);
    } else if i <= |head| {
      assert false;
    } else {
      var j := i - |head| - 1;
      assert tail[j..j + |pattern|] == text[i..i + |pattern|];
      assert OccursAt(tail, pattern, j);
    }
  }

  /** A pattern without a comma occurs in `head + "," + tail` only inside one of the two parts. */
  lemma OccurrenceAvoidsComma(head: string, tail: string, pattern: string)
    requires pattern != [] && ',' !in pattern
    ensures Contains(head + "," + tail, pattern) <==> Contains(head, pattern) || Contains(tail, pattern)
  {
    var text := head + "," + tail;
    if i :| 0 <= i <= |text| && OccursAt(text, pattern, i) {
      OccurrenceHasASide(head, tail, pattern, i);
    }
    if i :| 0 <= i <= |head| && OccursAt(head, pattern, i) {
      assert text[i..i + |pattern|] == head[i..i + |pattern|];
      assert OccursAt(text, pattern, i);
    }
    if i :| 0 <= i <= |tail| && OccursAt(tail, pattern, i) {
      var j := i + |head| + 1;
      assert text[j..j + |pattern|] == tail[i..i + |pattern|];
      assert OccursAt(text, pattern, j);
    }
  }

  /** The substring test on the joined list asks whether some single entry contains the pattern. */
  lemma {:induction false} JoinedContains(list: seq<string>, pattern: string)
    requires pattern != [] && ',' !in pattern
    ensures Contains(Join(list), pattern) <==> exists f | f in list :: Contains(f, pattern)
  {
    if |list| == 1 {
      assert list == [list[0]];
    } else if list != [] {
      assert list == [list[0]] + list[1..];
      OccurrenceAvoidsComma(list[0], Join(list[1..]), pattern);
      JoinedContains(list[1..], pattern);
    }
  }

  lemma ContainsItself(pattern: string)
    ensures Contains(pattern, pattern)
  {
    assert OccursAt(pattern, pattern, 0);
  }

  /** Adding twice is adding once, and afterwards the test succeeds. */
  lemma AddIsIdempotent(list: seq<string>)
    ensures AddFinalizer(AddFinalizer(list)) == AddFinalizer(list)
    ensures exists f | f in AddFinalizer(list) :: Contains(f, HPC_FINALIZER)
  {
    ContainsItself(HPC_FINALIZER);
    JoinedContains(list, HPC_FINALIZER);
    if !Contains(Join(list), HPC_FINALIZER) {
      assert HPC_FINALIZER in list + [HPC_FINALIZER];
      JoinedContains(list + [HPC_FINALIZER], HPC_FINALIZER);
    }
  }

  /** Removal deletes exactly the equal entries. */
  lemma {:induction false} RemoveDeletesEqual(list: seq<string>)
    ensures forall f :: f in RemoveFinalizer(list) <==> f in list && f != "hpc-sentinel/finalizer"
    ensures HPC_FINALIZER !in list ==> RemoveFinalizer(list) == list
    ensures forall f | f != HPC_FINALIZER :: multiset(RemoveFinalizer(list))[f] == multiset(list)[f]
  {
    if list != [] {
      RemoveDeletesEqual(list[..|list| - 1]);
      assert list == list[..|list| - 1] + [list[|list| - 1]];
    }
  }

  /** Removing after adding restores the list exactly when the finalizer itself was not on it. */
  lemma AddThenRemove(list: seq<string>)
    ensures RemoveFinalizer(AddFinalizer(list)) == list <==> HPC_FINALIZER !in list
  {
    RemoveDeletesEqual(list);
    if !Contains(Join(list), HPC_FINALIZER) {
      ContainsItself(HPC_FINALIZER);
      JoinedContains(list, HPC_FINALIZER);
      assert HPC_FINALIZER !in list;
      assert (list + [HPC_FINALIZER])[..|list|] == list;
    }
  }

  /** The others keep their order. */
  lemma {:induction false} RemovalSplits(a: seq<string>, b: seq<string>)
    ensures RemoveFinalizer(a + b) == RemoveFinalizer(a) + RemoveFinalizer(b)
  {
    if b == [] {
      assert a + b == a;
    } else {
      RemovalSplits(a, b[..|b| - 1]);
      assert (a + b)[..|a + b| - 1] == a + b[..|b| - 1];
    }
  }

  /** Adding appends the finalizer, unless its text occurs in some entry; entries that merely contain it count. */
  lemma AddAppendsExactly(list: seq<string>)
    ensures AddFinalizer(list)
         == if exists f | f in list :: Contains(f, "hpc-sentinel/finalizer") then list
            else list + ["hpc-sentinel/finalizer"]
  {
    JoinedContains(list, HPC_FINALIZER);
  }
}
