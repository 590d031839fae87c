/** `split` and `join` on one separator character, and that they undo each other. */
module Strings {
  function Split(value: string, sep: char): (parts: seq<string>)
    ensures parts != []
  {
    if value == "" then [""]
    else
      var rest := Split(value[1..], sep);
      if value[0] == sep then [""] + rest else [[value[0]] + rest[0]] + rest[1..]
  }

  function Join(parts: seq<string>, sep: char): string {
    if parts == [] then "" else if |parts| == 1 then parts[0] else parts[0] + [sep] + Join(parts[1..], sep)
  }

  /** No part contains the separator. */
  predicate Plain(parts: seq<string>, sep: char) {
    forall k :: 0 <= k < |parts| ==> sep !in parts[k]
  }

  /** Splitting loses nothing, and the parts contain no separator. */
  lemma {:induction false} SplitJoins(value: string, sep: char)
    ensures Join(Split(value, sep), sep) == value && Plain(Split(value, sep), sep)
  {
    if value != "" {
      var rest, c := Split(value[1..], sep), value[0];
      SplitJoins(value[1..], sep);
      assert value == [c] + value[1..];
      if c == sep {
        assert ([""] + rest)[1..] == rest;
      } else {
        var parts := [[c] + rest[0]] + rest[1..];
        assert parts[1..] == rest[1..];
        assert Join(parts, sep) == [c] + Join(rest, sep);
      }
    }
  }

  /** Joining separator-free parts and splitting again gives the parts. */
  lemma {:induction false} JoinSplits(parts: seq<string>, sep: char)
    requires parts != [] && Plain(parts, sep)
    ensures Split(Join(parts, sep), sep) == parts
  {
    if |parts| == 1 {
      SplitPlain(parts[0], sep);
    } else {
      JoinSplits(parts[1..], sep);
      SplitFirst(parts[0], Join(parts[1..], sep), sep);
      assert parts[0] + [sep] + Join(parts[1..], sep) == parts[0] + ([sep] + Join(parts[1..], sep));
    }
  }

  lemma {:induction false} SplitPlain(word: string, sep: char)
    requires sep !in word
    ensures Split(word, sep) == [word]
  {
    if word != "" {
      SplitPlain(word[1..], sep);
      assert word == [word[0]] + word[1..];
    }
  }

  /** The first part ends at the first separator. */
  lemma {:induction false} SplitFirst(word: string, rest: string, sep: char)
    requires sep !in word
    ensures Split(word + ([sep] + rest), sep) == [word] + Split(rest, sep)
  {
    var whole := word + ([sep] + rest);
    if word == "" {
      assert whole == [sep] + rest && whole[1..] == rest;
    } else {
      assert whole[1..] == word[1..] + ([sep] + rest);
      SplitFirst(word[1..], rest, sep);
      assert word == [word[0]] + word[1..];
    }
  }

  lemma {:induction false} JoinAvoids(parts: seq<string>, sep: char, c: char)
    requires Plain(parts, c) && c != sep
    ensures c !in Join(parts, sep)
  {
    if |parts| > 1 {
      JoinAvoids(parts[1..], sep, c);
    }
  }

  /** What a joined text lacks, its parts lack. */
  lemma {:induction false} PartOf(parts: seq<string>, sep: char, c: char, k: nat)
    requires k < |parts| && c !in Join(parts, sep)
    ensures c !in parts[k]
  {
    if |parts| > 1 && k > 0 {
      PartOf(parts[1..], sep, c, k - 1);
    }
  }
}
