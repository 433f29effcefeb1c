/** Splitting text at a separator, as Go's strings.Split does. */
module Strings {
  function Split(text: string, sep: char): (parts: seq<string>)
    ensures parts != []
  {
    if text == "" then [""]
    else PutFirst(text[0], Split(text[1..], sep), sep)
  }

  // The parts with one more character in front.
  function PutFirst(c: char, parts: seq<string>, sep: char): (more: seq<string>)
    requires parts != []
    ensures more != []
  {
    if c == sep then [""] + parts else [[c] + parts[0]] + parts[1..]
  }

  lemma PutFirstAppend(c: char, parts: seq<string>, others: seq<string>, sep: char)
    requires parts != []
    ensures PutFirst(c, parts + others, sep) == PutFirst(c, parts, sep) + others
  {
    assert (parts + others)[1..] == parts[1..] + others;
  }

  /** A first part without the separator is split off whole. */
  lemma {:induction false} SplitFirst(first: string, sep: char, rest: string)
    requires sep !in first
    ensures Split(first + [sep] + rest, sep) == [first] + Split(rest, sep)
    ensures Split(first, sep) == [first]
  {
    if first == "" {
      assert "" + [sep] + rest == [sep] + rest;
      assert ([sep] + rest)[1..] == rest;
    } else {
      SplitFirst(first[1..], sep, rest);
      assert (first + [sep] + rest)[1..] == first[1..] + [sep] + rest;
      assert [first[0]] + first[1..] == first;
    }
  }

  /** Splitting two texts joined by the separator splits each. */
  lemma {:induction false} SplitJoined(a: string, sep: char, b: string)
    ensures Split(a + [sep] + b, sep) == Split(a, sep) + Split(b, sep)
  {
    if a == "" {
      assert "" + [sep] + b == [sep] + b;
      assert ([sep] + b)[1..] == b;
    } else {
      hide PutFirst;
      SplitJoined(a[1..], sep, b);
      assert (a + [sep] + b)[1..] == a[1..] + [sep] + b;
      PutFirstAppend(a[0], Split(a[1..], sep), Split(b, sep), sep);
    }
  }
}
