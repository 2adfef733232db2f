/** String helpers the daemon relies on: strings.Join, its inverse for a
    one-character separator, and the case mapping used by command lookup. */
module Text {

  /** strings.Join: the parts with `sep` between consecutive ones. */
  function Join(parts: seq<string>, sep: string): string
    decreases |parts|
  {
    if |parts| == 0 then ""
    else if |parts| == 1 then parts[0]
    else parts[0] + sep + Join(parts[1..], sep)
  }

  /** Sum of the lengths of the parts. */
  function TotalLength(parts: seq<string>): nat
    decreases |parts|
  {
    if parts == [] then 0 else |parts[0]| + TotalLength(parts[1..])
  }

  /** Splits `s` at every occurrence of `sep`; the reference inverse of Join. */
  function Split(s: string, sep: char): (parts: seq<string>)
    ensures |parts| > 0
    decreases |s|
  {
    if s == [] then [""]
    else
      var rest := Split(s[1..], sep);
      if s[0] == sep then [""] + rest else [[s[0]] + rest[0]] + rest[1..]
  }

  /** A joined string is as long as its parts plus one separator between each pair. */
  lemma {:induction false} JoinLength(parts: seq<string>, sep: string)
    ensures |Join(parts, sep)| ==
            TotalLength(parts) + (if |parts| == 0 then 0 else (|parts| - 1) * |sep|)
    decreases |parts|
  {
    if |parts| > 1 {
      JoinLength(parts[1..], sep);
    }
  }

  /** Appending one part extends the joined string by the separator and that part. */
  lemma {:induction false} JoinSnoc(parts: seq<string>, last: string, sep: string)
    requires |parts| > 0
    ensures Join(parts + [last], sep) == Join(parts, sep) + sep + last
    decreases |parts|
  {
    if |parts| == 1 {
      assert parts + [last] == [parts[0], last];
      assert [parts[0], last][1..] == [last];
    } else {
      assert (parts + [last])[1..] == parts[1..] + [last];
      JoinSnoc(parts[1..], last, sep);
    }
  }

  /** A string without the separator splits into itself. */
  lemma {:induction false} SplitWithoutSeparator(s: string, sep: char)
    requires sep !in s
    ensures Split(s, sep) == [s]
    decreases |s|
  {
    if s != [] {
      SplitWithoutSeparator(s[1..], sep);
      assert [s[0]] + s[1..] == s;
    }
  }

  /** Splitting at the first separator peels off the text before it. */
  lemma {:induction false} SplitAtFirst(head: string, tail: string, sep: char)
    requires sep !in head
    ensures Split(head + [sep] + tail, sep) == [head] + Split(tail, sep)
    decreases |head|
  {
    var s := head + [sep] + tail;
    if head == [] {
      assert s[0] == sep && s[1..] == tail;
    } else {
      assert s[0] == head[0];
      assert s[1..] == head[1..] + [sep] + tail;
      SplitAtFirst(head[1..], tail, sep);
      assert [head[0]] + head[1..] == head;
    }
  }

  /** Join and Split are inverse when no part contains the separator. */
  lemma {:induction false} SplitJoin(parts: seq<string>, sep: char)
    requires |parts| > 0
    requires forall i :: 0 <= i < |parts| ==> sep !in parts[i]
    ensures Split(Join(parts, [sep]), sep) == parts
    decreases |parts|
  {
    if |parts| == 1 {
      SplitWithoutSeparator(parts[0], sep);
    } else {
      SplitJoin(parts[1..], sep);
      SplitAtFirst(parts[0], Join(parts[1..], [sep]), sep);
      assert [parts[0]] + parts[1..] == parts;
    }
  }

  /** unicode.ToLower restricted to the code points it maps into ASCII:
      'A'..'Z', U+0130 (capital I with dot) and U+212A (Kelvin sign). */
  function LowerChar(c: char): char
  {
    if 'A' <= c <= 'Z' then (c as int + 32) as char
    else if c == '\U{0130}' then 'i'
    else if c == '\U{212A}' then 'k'
    else c
  }

  /** strings.ToUpper of a one-byte ASCII string. */
  function UpperAscii(c: char): char
  {
    if 'a' <= c <= 'z' then (c as int - 32) as char else c
  }

  /** strings.ToLower as far as it yields ASCII: LowerChar on every
      character, so any other character is kept as it is. */
  function Lower(s: string): string
  {
    seq(|s|, i requires 0 <= i < |s| => LowerChar(s[i]))
  }

  /** The number of bytes UTF-8 spends on one character. */
  function Utf8Width(c: char): nat
  {
    if c as int < 0x80 then 1
    else if c as int < 0x800 then 2
    else if c as int < 0x1_0000 then 3
    else 4
  }

  /** len of a Go string: its length in UTF-8 bytes, between one and four
      bytes per character. */
  function ByteLength(s: string): (n: nat)
    ensures |s| <= n <= 4 * |s|
    decreases |s|
  {
    if s == [] then 0 else Utf8Width(s[0]) + ByteLength(s[1..])
  }

  /** The byte length of a concatenation is the sum of the byte lengths. */
  lemma {:induction false} ByteLengthAppend(a: string, b: string)
    ensures ByteLength(a + b) == ByteLength(a) + ByteLength(b)
    decreases |a|
  {
    if a != [] {
      assert (a + b)[0] == a[0] && (a + b)[1..] == a[1..] + b;
      ByteLengthAppend(a[1..], b);
    } else {
      assert a + b == b;
    }
  }

  /** A string has as many bytes as characters exactly when it is all ASCII. */
  lemma {:induction false} ByteLengthAscii(s: string)
    ensures ByteLength(s) == |s| <==> forall i :: 0 <= i < |s| ==> s[i] as int < 0x80
    decreases |s|
  {
    if s != [] {
      var t := s[1..];
      ByteLengthAscii(t);
      assert ByteLength(s) == Utf8Width(s[0]) + ByteLength(t);
      forall i | 0 <= i < |t| ensures t[i] == s[i + 1] { }
      if forall i :: 0 <= i < |s| ==> s[i] as int < 0x80 {
        assert s[0] as int < 0x80;
        assert forall i :: 0 <= i < |t| ==> t[i] as int < 0x80;
      } else {
        var k :| 0 <= k < |s| && s[k] as int >= 0x80;
        if k > 0 {
          assert t[k - 1] as int >= 0x80;
        }
        assert ByteLength(s) > |s|;
      }
    }
  }
}
