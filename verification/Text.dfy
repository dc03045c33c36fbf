// Splitting text at a separator.
module Text {
  // str.split(separator)
  function Split(s: string, separator: char): (parts: seq<string>)
    ensures |parts| > 0
  {
    if s == "" then [""]
    else
      var rest := Split(s[1..], separator);
      if s[0] == separator then [""] + rest else [[s[0]] + rest[0]] + rest[1..]
  }

  // Splitting at a separator undoes joining with it.
  lemma {:induction false} SplitJoin(head: string, separator: char, tail: string)
    requires separator !in head
    ensures Split(head + [separator] + tail, separator) == [head] + Split(tail, separator)
  {
    var s := head + [separator] + tail;
    if head == "" {
      assert s[1..] == tail;
    } else {
      SplitJoin(head[1..], separator, tail);
      assert s[1..] == head[1..] + [separator] + tail;
      assert [s[0]] + head[1..] == head;
    }
  }

  lemma {:induction false} SplitAtom(s: string, separator: char)
    requires separator !in s
    ensures Split(s, separator) == [s]
  {
    if s != "" {
      SplitAtom(s[1..], separator);
      assert [s[0]] + s[1..] == s;
    }
  }

  lemma {:induction false} SplitCount(head: string, separator: char, tail: string)
    ensures |Split(head + [separator] + tail, separator)| >= 1 + |Split(tail, separator)|
    ensures separator in head ==> |Split(head + [separator] + tail, separator)| > 1 + |Split(tail, separator)|
  {
    var s := head + [separator] + tail;
    if head == "" {
      assert s[1..] == tail;
    } else {
      SplitCount(head[1..], separator, tail);
      assert s[1..] == head[1..] + [separator] + tail;
    }
  }
}
