/**
 Sequences without repetition, and splitting a sequence at a separator.
 */
module Sequences {
  ghost predicate Distinct<T>(s: seq<T>) {
    forall i, j :: 0 <= i < j < |s| ==> s[i] != s[j]
  }

  lemma DistinctTogether<T>(a: seq<T>, b: seq<T>)
    requires Distinct(a) && Distinct(b) && forall x :: x in b ==> x !in a
    ensures Distinct(a + b)
  {
    forall i, j | 0 <= i < j < |a + b| ensures (a + b)[i] != (a + b)[j] {
      if i < |a| <= j {
        assert a[i] in a && b[j - |a|] in b;
      }
    }
  }

  /** The parts between the separators; without one, the whole. */
  function Split<T(==)>(text: seq<T>, separator: T): (parts: seq<seq<T>>)
    ensures parts != [] && forall part :: part in parts ==> separator !in part
  {
    if text == [] then [[]]
    else
      var rest := Split(text[1..], separator);
      if text[0] == separator then [[]] + rest
      else
        var first := [text[0]] + rest[0];
        assert forall part :: part in [first] + rest[1..] ==> part == first || part in rest;
        [first] + rest[1..]
  }

  lemma {:induction false} SplitPlain<T>(text: seq<T>, separator: T)
    requires separator !in text
    ensures Split(text, separator) == [text]
  {
    if text != [] {
      SplitPlain(text[1..], separator);
      assert [text[0]] + text[1..] == text;
    }
  }

  lemma {:induction false} SplitFirst<T>(a: seq<T>, separator: T, rest: seq<T>)
    requires separator !in a
    ensures Split(a + [separator] + rest, separator) == [a] + Split(rest, separator)
  {
    var text := a + [separator] + rest;
    if a == [] {
      assert text[1..] == rest;
    } else {
      assert text[1..] == a[1..] + [separator] + rest;
      SplitFirst(a[1..], separator, rest);
      assert [text[0]] + a[1..] == a;
    }
  }
}
