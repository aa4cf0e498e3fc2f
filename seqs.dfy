/** Concatenating a sequence of sequences, as repeated `list.extend` does. */
module Seqs {

  /** The parts joined end to end, in order. */
  function Flatten<T>(parts: seq<seq<T>>): seq<T>
    decreases |parts|
  {
    if parts == [] then [] else Flatten(parts[..|parts| - 1]) + parts[|parts| - 1]
  }

  /** Extending by one more part appends that part. */
  lemma FlattenSnoc<T>(parts: seq<seq<T>>, last: seq<T>)
    ensures Flatten(parts + [last]) == Flatten(parts) + last
  {
    assert (parts + [last])[..|parts|] == parts;
  }

  lemma {:induction false} FlattenAppend<T>(a: seq<seq<T>>, b: seq<seq<T>>)
    ensures Flatten(a + b) == Flatten(a) + Flatten(b)
    decreases |b|
  {
    if b == [] {
      assert a + b == a;
    } else {
      var n := |b| - 1;
      assert a + b == (a + b[..n]) + [b[n]];
      assert b == b[..n] + [b[n]];
      FlattenSnoc(a + b[..n], b[n]);
      FlattenSnoc(b[..n], b[n]);
      FlattenAppend(a, b[..n]);
    }
  }

  /** A property of every element of every part holds of every element of the whole. */
  lemma {:induction false} FlattenAll<T>(parts: seq<seq<T>>, p: T -> bool)
    requires forall i, k :: 0 <= i < |parts| && 0 <= k < |parts[i]| ==> p(parts[i][k])
    ensures forall j :: 0 <= j < |Flatten(parts)| ==> p(Flatten(parts)[j])
    decreases |parts|
  {
    if parts != [] {
      var n := |parts| - 1;
      var front := parts[..n];
      assert forall i, k :: 0 <= i < |front| && 0 <= k < |front[i]| ==> p(front[i][k]) by {
        forall i, k | 0 <= i < |front| && 0 <= k < |front[i]| ensures p(front[i][k]) {
          assert front[i] == parts[i];
        }
      }
      FlattenAll(front, p);
      var whole := Flatten(parts);
      assert whole == Flatten(front) + parts[n];
      forall j | 0 <= j < |whole| ensures p(whole[j]) {
        if j < |Flatten(front)| {
          assert whole[j] == Flatten(front)[j];
        } else {
          assert whole[j] == parts[n][j - |Flatten(front)|];
        }
      }
    }
  }

  /** Empty parts flatten to nothing. */
  lemma {:induction false} FlattenEmpty<T>(parts: seq<seq<T>>)
    requires forall i :: 0 <= i < |parts| ==> parts[i] == []
    ensures Flatten(parts) == []
    decreases |parts|
  {
    if parts != [] {
      var n := |parts| - 1;
      assert forall i :: 0 <= i < n ==> parts[..n][i] == parts[i];
      FlattenEmpty(parts[..n]);
    }
  }

  /** Parts of two elements each: element j of the whole is element j % 2 of part j / 2. */
  lemma {:induction false} FlattenPairs<T>(parts: seq<seq<T>>)
    requires forall i :: 0 <= i < |parts| ==> |parts[i]| == 2
    ensures |Flatten(parts)| == 2 * |parts|
    ensures forall i :: 0 <= i < |parts| ==>
      Flatten(parts)[2 * i] == parts[i][0] && Flatten(parts)[2 * i + 1] == parts[i][1]
    decreases |parts|
  {
    if parts != [] {
      var n := |parts| - 1;
      var front := parts[..n];
      assert forall i :: 0 <= i < n ==> front[i] == parts[i];
      FlattenPairs(front);
      var whole := Flatten(parts);
      assert whole == Flatten(front) + parts[n];
      forall i | 0 <= i < |parts|
        ensures whole[2 * i] == parts[i][0] && whole[2 * i + 1] == parts[i][1]
      {
        if i < n {
          assert whole[2 * i] == Flatten(front)[2 * i];
          assert whole[2 * i + 1] == Flatten(front)[2 * i + 1];
        }
      }
    }
  }
}
