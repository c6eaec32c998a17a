/** Notions that several homeworks share. */
module Basics {

  datatype Option<T> = None | Some(value: T)

  predicate IsDigit(ch: char) {
    '0' <= ch <= '9'
  }

  predicate IsAlnum(ch: char) {
    IsDigit(ch) || 'a' <= ch <= 'z' || 'A' <= ch <= 'Z'
  }

  /** All parts, one behind the other. */
  function Flatten<T>(parts: seq<seq<T>>): seq<T> {
    if parts == [] then [] else parts[0] + Flatten(parts[1..])
  }

  lemma {:induction false} FlattenSnoc<T>(parts: seq<seq<T>>, x: seq<T>)
    ensures Flatten(parts + [x]) == Flatten(parts) + x
  {
    if parts == [] {
      assert parts + [x] == [x] && [x][1..] == [];
      assert Flatten([x]) == x + Flatten<T>([]);
    } else {
      assert (parts + [x])[1..] == parts[1..] + [x];
      FlattenSnoc(parts[1..], x);
    }
  }

  lemma {:induction false} FlattenSplit<T>(parts: seq<seq<T>>, i: nat)
    requires i <= |parts|
    ensures Flatten(parts) == Flatten(parts[..i]) + Flatten(parts[i..])
  {
    if i == 0 {
      assert parts[..0] == [] && parts[0..] == parts;
    } else {
      FlattenSplit(parts[1..], i - 1);
      assert parts[..i][1..] == parts[1..][..i - 1] && parts[i..] == parts[1..][i - 1..];
    }
  }

  lemma FlattenTwo<T>(a: seq<seq<T>>, b: seq<seq<T>>)
    ensures Flatten(a + b) == Flatten(a) + Flatten(b)
  {
    FlattenSplit(a + b, |a|);
    assert (a + b)[..|a|] == a && (a + b)[|a|..] == b;
  }
}
