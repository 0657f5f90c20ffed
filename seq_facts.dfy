// Facts about sequences that the imperative parts of the model use to
// line up what a loop has appended so far with the recursive definitions
// of what it should append.
module SeqFacts {
  lemma AppendAssoc<T>(a: seq<T>, b: seq<T>, c: seq<T>)
    ensures (a + b) + c == a + (b + c)
  {
  }

  lemma TakeOne<T>(s: seq<T>, r: nat)
    requires r + 1 <= |s|
    ensures s[..r + 1][..r] == s[..r] && s[..r + 1][r] == s[r]
    ensures s[..r] + [s[r]] == s[..r + 1]
  {
  }

  lemma TakeTwo<T>(s: seq<T>, r: nat)
    requires r + 2 <= |s|
    ensures s[..r] + [s[r], s[r + 1]] == s[..r + 2]
  {
  }

  lemma TakeThree<T>(s: seq<T>, r: nat)
    requires r + 3 <= |s|
    ensures s[..r] + [s[r], s[r + 1], s[r + 2]] == s[..r + 3]
  {
  }

  lemma SliceOfFront<T>(s: seq<T>, t: seq<T>, i: nat, j: nat)
    requires i <= j <= |s|
    ensures (s + t)[i..j] == s[i..j]
  {
  }

  lemma SliceOfBack<T>(s: seq<T>, t: seq<T>, i: nat, j: nat)
    requires i == |s| && j == |s| + |t|
    ensures (s + t)[i..j] == t
  {
  }
}
