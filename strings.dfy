/**
 * The JavaScript string operations the screens rely on, over `seq<char>`:
 * Array.prototype.join, String.prototype.split with a one-character
 * separator, String.prototype.trim, an ASCII toLowerCase and includes.
 */
module Strings {

  /** `parts.join(sep)`: the parts in order with `sep` between neighbours. */
  function Join(parts: seq<string>, sep: string): string
  {
    if |parts| == 0 then ""
    else if |parts| == 1 then parts[0]
    else parts[0] + sep + Join(parts[1..], sep)
  }

  /**
   * `s.split(c)`: the maximal pieces of `s` that hold no `c`, in order.
   * There is always at least one piece (`"".split(c)` is `[""]`), and
   * joining the pieces with `c` gives `s` back.
   */
  function Split(s: string, c: char): (parts: seq<string>)
    ensures |parts| >= 1
    ensures forall i :: 0 <= i < |parts| ==> c !in parts[i]
    ensures Join(parts, [c]) == s
  {
    if |s| == 0 then [""]
    else
      var rest := Split(s[1..], c);
      if s[0] == c then
        assert s == [c] + s[1..];
        [""] + rest
      else
        var parts := [[s[0]] + rest[0]] + rest[1..];
        assert parts[1..] == rest[1..];
        assert s == [s[0]] + s[1..];
        parts
  }

  /** A separator-free prefix only lengthens the first piece. */
  lemma {:induction false} SplitPrefix(a: string, b: string, c: char)
    requires c !in a
    ensures Split(a + b, c) == [a + Split(b, c)[0]] + Split(b, c)[1..]
  {
    if a == [] {
      var t := Split(b, c);
      assert a + b == b;
      assert a + t[0] == t[0];
      assert t == [t[0]] + t[1..];
    } else {
      SplitPrefix(a[1..], b, c);
      assert (a + b)[1..] == a[1..] + b;
      assert [a[0]] + (a[1..] + Split(b, c)[0]) == a + Split(b, c)[0];
    }
  }

  /** The characters String.prototype.trim removes: WhiteSpace and LineTerminator of ECMA-262. */
  predicate IsSpace(ch: char)
  {
    ch == '\t' || ch == '\U{B}' || ch == '\U{C}' || ch == ' ' || ch == '\U{A0}' || ch == '\U{FEFF}'
    || ch == '\n' || ch == '\r' || ch == '\U{2028}' || ch == '\U{2029}'
    || ch == '\U{1680}' || ('\U{2000}' <= ch <= '\U{200A}') || ch == '\U{202F}' || ch == '\U{205F}'
    || ch == '\U{3000}'
  }

  /** Neither end of `s` is white space. */
  predicate Trimmed(s: string)
  {
    |s| == 0 || (!IsSpace(s[0]) && !IsSpace(s[|s| - 1]))
  }

  function TrimStart(s: string): (r: string)
    ensures |r| == 0 || !IsSpace(r[0])
    ensures |r| <= |s| && r == s[|s| - |r|..]
    ensures forall i :: 0 <= i < |s| - |r| ==> IsSpace(s[i])
  {
    if |s| > 0 && IsSpace(s[0]) then TrimStart(s[1..]) else s
  }

  function TrimEnd(s: string): (r: string)
    ensures |r| == 0 || !IsSpace(r[|r| - 1])
    ensures |r| <= |s| && r == s[..|r|]
    ensures forall i :: |r| <= i < |s| ==> IsSpace(s[i])
  {
    if |s| > 0 && IsSpace(s[|s| - 1]) then TrimEnd(s[..|s| - 1]) else s
  }

  /** `s.trim()`: white space removed from both ends, and nothing else. */
  function Trim(s: string): (r: string)
    ensures Trimmed(r)
    ensures Trimmed(s) ==> r == s
    ensures |r| <= |s|
  {
    TrimEnd(TrimStart(s))
  }

  /** `parts.map(p => p.trim())`. */
  function TrimAll(parts: seq<string>): (r: seq<string>)
    ensures |r| == |parts|
    ensures forall i :: 0 <= i < |parts| ==> r[i] == Trim(parts[i])
  {
    if parts == [] then [] else [Trim(parts[0])] + TrimAll(parts[1..])
  }

  /** A leading blank makes no difference to `trim`. */
  lemma TrimLeadingBlank(s: string)
    ensures Trim(" " + s) == Trim(s)
  {
    assert (" " + s)[1..] == s;
  }

  /** The first piece of a comma-space join is its first part. */
  lemma SplitAfterHead(head: string, tail: string)
    requires ',' !in head
    ensures Split(head + ", " + tail, ',') == [head] + Split(" " + tail, ',')
  {
    var x := "," + (" " + tail);
    assert head + ", " + tail == head + x;
    assert x[0] == ',' && x[1..] == " " + tail;
    var sx := Split(x, ',');
    assert sx == [""] + Split(" " + tail, ',');
    SplitPrefix(head, x, ',');
    assert head + sx[0] == head;
    assert sx[1..] == Split(" " + tail, ',');
  }

  /** The blank after a comma disappears under `trim`. */
  lemma TrimAllAfterBlank(tail: string)
    ensures TrimAll(Split(" " + tail, ',')) == TrimAll(Split(tail, ','))
  {
    var t := Split(tail, ',');
    SplitPrefix(" ", tail, ',');
    var u := Split(" " + tail, ',');
    assert u == [" " + t[0]] + t[1..];
    TrimLeadingBlank(t[0]);
    assert u[1..] == t[1..];
  }

  /**
   * Joining with ", " and splitting again at ',' gives back the parts up to
   * `trim`, provided no part holds a comma.
   */
  lemma {:induction false} SplitCommaSpaceJoin(parts: seq<string>)
    requires |parts| >= 1
    requires forall i :: 0 <= i < |parts| ==> ',' !in parts[i]
    ensures TrimAll(Split(Join(parts, ", "), ',')) == TrimAll(parts)
  {
    if |parts| == 1 {
      SplitPrefix(parts[0], "", ',');
      assert parts[0] + "" == parts[0];
    } else {
      var tail := Join(parts[1..], ", ");
      SplitCommaSpaceJoin(parts[1..]);
      SplitAfterHead(parts[0], tail);
      TrimAllAfterBlank(tail);
      var u := Split(" " + tail, ',');
      assert ([parts[0]] + u)[1..] == u;
    }
  }

  /** ASCII `toLowerCase` of one character. */
  function LowerChar(ch: char): char
  {
    if 'A' <= ch <= 'Z' then (ch as int + 32) as char else ch
  }

  /** ASCII `s.toLowerCase()`: same length, every letter in lower case. */
  function ToLower(s: string): (r: string)
    ensures |r| == |s|
    ensures forall i :: 0 <= i < |s| ==> r[i] == LowerChar(s[i])
  {
    seq(|s|, i requires 0 <= i < |s| => LowerChar(s[i]))
  }

  lemma ToLowerIdempotent(s: string)
    ensures ToLower(ToLower(s)) == ToLower(s)
  {
  }

  /** `haystack.includes(needle)`: the needle occurs somewhere in the haystack. */
  predicate Contains(haystack: string, needle: string)
  {
    exists i :: 0 <= i <= |haystack| && OccursAt(haystack, needle, i)
  }

  /** The needle occurs in the haystack starting at index `i`. */
  predicate OccursAt(haystack: string, needle: string, i: int)
  {
    0 <= i <= |haystack| - |needle| && haystack[i..i + |needle|] == needle
  }

  /** Every string includes the empty string. */
  lemma ContainsEmpty(haystack: string)
    ensures Contains(haystack, "")
  {
    assert OccursAt(haystack, "", 0);
  }
}
