/**
 * Vocabulary shared by all modules: Option and Result; the first and last parts of a
 * sequence; and what the proofs use of finite sequences and sets, above all of
 * sequences without repetition: their elements, concatenation and reordering.
 */
module Base {
  datatype Option<+T> = None | Some(value: T)

  datatype Result<+T, +E> = Ok(value: T) | Err(error: E)

  ghost predicate NoDup<T>(s: seq<T>) {
    s == [] || (NoDup(Init(s)) && Last(s) !in Init(s))
  }

  lemma {:induction false} NoDupIndex<T>(s: seq<T>)
    ensures NoDup(s) <==> forall i, j | 0 <= i < j < |s| :: s[i] != s[j]
  {
    if s != [] {
      NoDupIndex(Init(s));
      SplitLast(s);
    }
  }

  ghost function Elems<T>(s: seq<T>): set<T> {
    set x | x in s
  }

  function Reverse<T>(s: seq<T>): (r: seq<T>)
    ensures |r| == |s|
    ensures forall i | 0 <= i < |s| :: r[i] == s[|s| - 1 - i]
  {
    if s == [] then [] else [s[|s| - 1]] + Reverse(s[..|s| - 1])
  }

  function Last<T>(s: seq<T>): T
    requires s != []
  {
    s[|s| - 1]
  }

  function Init<T>(s: seq<T>): seq<T>
    requires s != []
  {
    s[..|s| - 1]
  }

  // A sequence without repetition has as many elements as its set.
  lemma {:induction false} NoDupCard<T>(s: seq<T>)
    requires NoDup(s)
    ensures |Elems(s)| == |s|
  {
    if s != [] {
      NoDupCard(Init(s));
      assert s == Init(s) + [Last(s)];
      assert Elems(s) == Elems(Init(s)) + {Last(s)};
    }
  }

  lemma SubsetCard<T>(a: set<T>, b: set<T>)
    requires a <= b
    ensures |a| <= |b|
    ensures |a| == |b| ==> a == b
  {
    assert b == a + (b - a);
    assert |b| == |a| + |b - a|;
  }

  // Pigeonhole: a sequence longer than the set it draws from repeats an element.
  lemma Pigeonhole<T>(s: seq<T>, u: set<T>) returns (i: nat, j: nat)
    requires Elems(s) <= u && |s| > |u|
    ensures i < j < |s| && s[i] == s[j]
  {
    if NoDup(s) {
      NoDupCard(s);
      SubsetCard(Elems(s), u);
      assert false;
    }
    NoDupIndex(s);
    i, j :| 0 <= i < j < |s| && s[i] == s[j];
  }

  lemma SplitLast<T>(s: seq<T>)
    requires s != []
    ensures s == Init(s) + [Last(s)]
    ensures Elems(s) == Elems(Init(s)) + {Last(s)}
    ensures multiset(s) == multiset(Init(s)) + multiset{Last(s)}
  {
    assert s == Init(s) + [Last(s)];
  }

  lemma ElemsConcat<T>(a: seq<T>, b: seq<T>)
    ensures Elems(a + b) == Elems(a) + Elems(b)
  {
  }

  lemma SameElems<T>(a: seq<T>, b: seq<T>)
    requires multiset(a) == multiset(b)
    ensures Elems(a) == Elems(b) && |a| == |b|
    ensures forall x :: x in a <==> x in b
  {
    forall x ensures x in a <==> x in b {
      assert x in a <==> x in multiset(a);
      assert x in b <==> x in multiset(b);
    }
    assert |multiset(a)| == |a| && |multiset(b)| == |b|;
  }

  lemma {:induction false} NoDupMultiset<T>(s: seq<T>)
    ensures NoDup(s) <==> forall x :: multiset(s)[x] <= 1
  {
    if s != [] {
      SplitLast(s);
      NoDupMultiset(Init(s));
      assert multiset(s)[Last(s)] == multiset(Init(s))[Last(s)] + 1;
      forall x ensures multiset(Init(s))[x] <= multiset(s)[x] <= multiset(Init(s))[x] + 1 {}
      assert Last(s) in Init(s) <==> Last(s) in multiset(Init(s));
    }
  }

  lemma SameMultiset<T>(a: seq<T>, b: seq<T>)
    requires NoDup(a) && NoDup(b) && forall x :: x in a <==> x in b
    ensures multiset(a) == multiset(b)
  {
    NoDupMultiset(a);
    NoDupMultiset(b);
    forall x ensures multiset(a)[x] == multiset(b)[x] {
      assert x in multiset(a) <==> x in a;
      assert x in multiset(b) <==> x in b;
    }
  }

  lemma NoDupPermute<T>(a: seq<T>, b: seq<T>)
    requires multiset(a) == multiset(b) && NoDup(b)
    ensures NoDup(a)
  {
    NoDupMultiset(a);
    NoDupMultiset(b);
  }

  lemma {:induction false} NoDupConcat<T>(a: seq<T>, b: seq<T>)
    ensures NoDup(a + b) <==> NoDup(a) && NoDup(b) && Elems(a) !! Elems(b)
  {
    if b == [] {
      assert a + b == a;
    } else {
      assert Init(a + b) == a + Init(b);
      NoDupConcat(a, Init(b));
      SplitLast(b);
    }
  }

  lemma {:induction false} ReverseMultiset<T>(s: seq<T>)
    ensures multiset(Reverse(s)) == multiset(s)
  {
    if s != [] {
      SplitLast(s);
      ReverseMultiset(Init(s));
    }
  }

  lemma ConcatAssoc3<T>(a: seq<T>, b: seq<T>, c: seq<T>)
    ensures a + (b + c) == a + b + c
  {
  }

  lemma ConcatAssoc<T>(a: seq<T>, b: seq<T>, c: seq<T>, d: seq<T>)
    ensures a + (b + (c + d)) == a + b + c + d
  {
  }

  lemma OnlyElement<T(!new)>(s: seq<T>, x: T)
    requires NoDup(s) && forall y :: y in s <==> y == x
    ensures s == [x]
  {
    NoDupCard(s);
    assert Elems(s) == {x};
    assert forall i | 0 <= i < |s| :: s[i] in s;
  }

  lemma NoElement<T(!new)>(s: seq<T>)
    requires NoDup(s) && forall y :: y !in s
    ensures s == []
  {
    NoDupCard(s);
    assert Elems(s) == {};
  }

  lemma TakeOneMore<T>(s: seq<T>, n: nat)
    requires NoDup(s) && n < |s|
    ensures s[..n + 1] == s[..n] + [s[n]] && s[n] in s && s[n] !in Elems(s[..n])
    ensures Elems(s[..n + 1]) == Elems(s[..n]) + {s[n]}
  {
    NoDupIndex(s);
    ElemsConcat(s[..n], [s[n]]);
  }

  lemma AppendOne<T>(s: seq<T>, x: T)
    ensures Elems(s + [x]) == Elems(s) + {x}
    ensures x !in s && NoDup(s) ==> NoDup(s + [x])
  {
    ElemsConcat(s, [x]);
    assert Init(s + [x]) == s;
  }
}
