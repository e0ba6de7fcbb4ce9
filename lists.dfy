/** The java.util.List operations the game's collections rely on. */
module Lists {
  /** List.remove(Object): the list without the first occurrence of x, if any. */
  function RemoveFirst<T(==)>(s: seq<T>, x: T): seq<T>
  {
    if s == [] then []
    else if s[0] == x then s[1..]
    else [s[0]] + RemoveFirst(s[1..], x)
  }

  /** Removing a non-member changes nothing. */
  lemma {:induction false} RemoveNonMember<T>(s: seq<T>, x: T)
    requires x !in s
    ensures RemoveFirst(s, x) == s
  {
    if s != [] {
      RemoveNonMember(s[1..], x);
    }
  }

  /** Removing a member cuts out exactly its first occurrence and keeps the order of the rest. */
  lemma {:induction false} RemoveFirstOccurrence<T>(s: seq<T>, x: T, i: nat)
    requires i < |s| && s[i] == x && x !in s[..i]
    ensures RemoveFirst(s, x) == s[..i] + s[i + 1..]
  {
    if i > 0 {
      assert s[0] in s[..i];
      assert s[1..][..i - 1] == s[1..i];
      assert x !in s[1..][..i - 1];
      RemoveFirstOccurrence(s[1..], x, i - 1);
      assert s[..i] == [s[0]] + s[1..][..i - 1];
      assert s[1..][i - 1 + 1..] == s[i + 1..];
    }
  }

  /** Removal takes one copy of x out of the multiset of members, or none if x is absent. */
  lemma {:induction false} RemoveFirstMultiset<T>(s: seq<T>, x: T)
    ensures multiset(RemoveFirst(s, x)) == multiset(s) - multiset{x}
  {
    if s != [] {
      assert s == [s[0]] + s[1..];
      assert multiset(s) == multiset{s[0]} + multiset(s[1..]);
      if s[0] != x {
        RemoveFirstMultiset(s[1..], x);
        assert multiset(s) - multiset{x} == multiset{s[0]} + (multiset(s[1..]) - multiset{x});
      }
    }
  }

  /** Appending an element and then removing it restores the list it was appended to. */
  lemma {:induction false} AddThenRemove<T>(s: seq<T>, x: T)
    requires x !in s
    ensures RemoveFirst(s + [x], x) == s
  {
    if s != [] {
      assert (s + [x])[1..] == s[1..] + [x];
      AddThenRemove(s[1..], x);
    }
  }
}
