/** The string operations the two dialogs rely on, as the UI toolkit's string
    class defines them: white space, trimming, removing a character,
    sections around a separator, splitting into pieces, and the line
    structure of a text file. Strings are sequences of Unicode scalar
    values. */
module Text {

  /** The toolkit's white-space test (the characters trimming removes):
      U+0009 to U+000D, the space, U+0085, the no-break space and the
      Unicode space, line and paragraph separators. */
  predicate IsSpace(c: char) {
    || c == ' '
    || ('\U{0009}' <= c <= '\U{000D}')
    || c == '\U{0085}'
    || c == '\U{00A0}'
    || c == '\U{1680}'
    || ('\U{2000}' <= c <= '\U{200A}')
    || c == '\U{2028}'
    || c == '\U{2029}'
    || c == '\U{202F}'
    || c == '\U{205F}'
    || c == '\U{3000}'
  }

  predicate AllSpace(s: string) {
    forall i :: 0 <= i < |s| ==> IsSpace(s[i])
  }

  /** The number of white-space characters at the start of s. */
  function LeadingSpaces(s: string): (n: nat)
    ensures n <= |s|
    ensures forall i :: 0 <= i < n ==> IsSpace(s[i])
    ensures n < |s| ==> !IsSpace(s[n])
  {
    if s == [] || !IsSpace(s[0]) then 0 else 1 + LeadingSpaces(s[1..])
  }

  /** The number of white-space characters at the end of s. */
  function TrailingSpaces(s: string): (n: nat)
    ensures n <= |s|
    ensures forall i :: |s| - n <= i < |s| ==> IsSpace(s[i])
    ensures n < |s| ==> !IsSpace(s[|s| - 1 - n])
  {
    if s == [] || !IsSpace(s[|s| - 1]) then 0 else 1 + TrailingSpaces(s[..|s| - 1])
  }

  /** Where the text kept by trimming starts: after the leading white space. */
  function TrimStart(s: string): (lo: nat)
    ensures lo <= |s|
    ensures forall i :: 0 <= i < lo ==> IsSpace(s[i])
    ensures lo < |s| ==> !IsSpace(s[lo])
  {
    LeadingSpaces(s)
  }

  /** Where the text kept by trimming ends: before the trailing white space,
      and at the very end when s is all white space. */
  function TrimEnd(s: string): (hi: nat)
    ensures TrimStart(s) <= hi <= |s|
    ensures forall i :: hi <= i < |s| ==> IsSpace(s[i])
    ensures TrimStart(s) < hi ==> !IsSpace(s[hi - 1])
    ensures TrimStart(s) == hi ==> hi == |s|
  {
    var lo := LeadingSpaces(s);
    if lo == |s| then |s|
    else
      var n := TrailingSpaces(s);
      assert |s| - n > lo;
      |s| - n
  }

  /** trimmed(): s without the white space at its start and at its end;
      white space inside is kept. */
  function Trim(s: string): (r: string)
    ensures r == s[TrimStart(s)..TrimEnd(s)]
    ensures r == [] || (!IsSpace(r[0]) && !IsSpace(r[|r| - 1]))
    ensures r == [] <==> AllSpace(s)
  {
    s[TrimStart(s)..TrimEnd(s)]
  }

  /** Trimming is determined by the text between the white-space margins:
      whatever margins surround m, trimming gives back m. */
  lemma TrimUnique(x: string, m: string, y: string)
    requires AllSpace(x) && AllSpace(y)
    requires m == [] || (!IsSpace(m[0]) && !IsSpace(m[|m| - 1]))
    ensures Trim(x + m + y) == m
  {
    var s := x + m + y;
    if m == [] {
      forall i | 0 <= i < |s| ensures IsSpace(s[i]) {
        if i < |x| { assert s[i] == x[i]; } else { assert s[i] == y[i - |x|]; }
      }
    } else {
      var lo, hi := TrimStart(s), TrimEnd(s);
      assert s[|x|] == m[0];
      assert s[|x| + |m| - 1] == m[|m| - 1];
      assert lo <= |x|;
      assert forall i :: 0 <= i < |x| ==> s[i] == x[i];
      assert lo == |x|;
      assert hi >= |x| + |m|;
      assert forall i :: |x| + |m| <= i < |s| ==> s[i] == y[i - |x| - |m|];
      assert hi == |x| + |m|;
      assert s[lo..hi] == m;
    }
  }

  /** Trimming twice is trimming once. */
  lemma TrimIdempotent(s: string)
    ensures Trim(Trim(s)) == Trim(s)
  {
    TrimUnique([], Trim(s), []);
    assert [] + Trim(s) + [] == Trim(s);
  }

  /** s with every occurrence of x taken out and the rest kept in order. */
  function Remove<T(==)>(s: seq<T>, x: T): (r: seq<T>)
    ensures x !in r
    ensures x !in s ==> r == s
  {
    if s == [] then []
    else
      assert s == [s[0]] + s[1..];
      (if s[0] == x then [] else [s[0]]) + Remove(s[1..], x)
  }

  /** Removing distributes over concatenation, so order is kept. */
  lemma {:induction false} RemoveAppend<T>(a: seq<T>, b: seq<T>, x: T)
    ensures Remove(a + b, x) == Remove(a, x) + Remove(b, x)
  {
    if a == [] {
      assert a + b == b;
    } else {
      assert (a + b)[0] == a[0];
      assert (a + b)[1..] == a[1..] + b;
      RemoveAppend(a[1..], b, x);
    }
  }

  /** Removing keeps only elements that were there. */
  lemma {:induction false} RemoveKeeps<T>(s: seq<T>, x: T)
    ensures forall i :: 0 <= i < |Remove(s, x)| ==> Remove(s, x)[i] in s
  {
    if s != [] {
      RemoveKeeps(s[1..], x);
      var r := Remove(s[1..], x);
      forall i | 0 <= i < |Remove(s, x)| ensures Remove(s, x)[i] in s {
        if s[0] == x {
          assert Remove(s, x)[i] == r[i];
          assert r[i] in s[1..];
        } else if i > 0 {
          assert Remove(s, x)[i] == r[i - 1];
          assert r[i - 1] in s[1..];
        }
      }
    }
  }

  /** The position of the first x in s. */
  function IndexOf<T(==)>(s: seq<T>, x: T): (i: nat)
    requires x in s
    ensures i < |s| && s[i] == x
    ensures forall j :: 0 <= j < i ==> s[j] != x
  {
    if s[0] == x then 0
    else
      assert s == [s[0]] + s[1..];
      1 + IndexOf(s[1..], x)
  }

  /** Any position holding x with no x before it is the one IndexOf finds. */
  lemma IndexOfFirst<T>(s: seq<T>, x: T, i: nat)
    requires i < |s| && s[i] == x
    requires forall j :: 0 <= j < i ==> s[j] != x
    ensures IndexOf(s, x) == i
  {
  }

  /** section(sep, 0, 0): the text before the first sep, or the whole of s
      when sep does not occur. */
  function SectionBefore(s: string, sep: char): (r: string)
    ensures sep !in r
    ensures sep !in s ==> r == s
  {
    if sep in s then s[..IndexOf(s, sep)] else s
  }

  /** section(sep, 1): the text after the first sep, later separators
      included; empty when sep does not occur. */
  function SectionAfter(s: string, sep: char): (r: string)
    ensures sep in s ==> s == SectionBefore(s, sep) + [sep] + r
    ensures sep !in s ==> r == []
  {
    if sep in s then
      var i := IndexOf(s, sep);
      assert s == s[..i] + [sep] + s[i + 1..];
      s[i + 1..]
    else []
  }

  /** The pieces joined back together, sep between neighbours. */
  function Join(parts: seq<string>, sep: char): string
    requires |parts| >= 1
  {
    if |parts| == 1 then parts[0] else parts[0] + [sep] + Join(parts[1..], sep)
  }

  /** A join starts with the first character of its first piece. */
  lemma JoinFirst(parts: seq<string>, sep: char)
    requires |parts| >= 1 && parts[0] != []
    ensures Join(parts, sep) != [] && Join(parts, sep)[0] == parts[0][0]
  {
  }

  /** A join ends with the last character of its last piece. */
  lemma {:induction false} JoinLast(parts: seq<string>, sep: char)
    requires |parts| >= 1 && parts[|parts| - 1] != []
    ensures var j, p := Join(parts, sep), parts[|parts| - 1]; j != [] && j[|j| - 1] == p[|p| - 1]
    decreases |parts|
  {
    if |parts| > 1 {
      assert parts[1..][|parts| - 2] == parts[|parts| - 1];
      JoinLast(parts[1..], sep);
    }
  }

  /** split(sep) keeping empty pieces: the text between consecutive
      separators, from the start of s to its end. */
  function Split(s: string, sep: char): (parts: seq<string>)
    ensures |parts| >= 1
    ensures forall i :: 0 <= i < |parts| ==> sep !in parts[i]
    ensures Join(parts, sep) == s
    decreases |s|
  {
    if sep !in s then [s]
    else
      var i := IndexOf(s, sep);
      var rest := Split(s[i + 1..], sep);
      assert ([s[..i]] + rest)[1..] == rest;
      assert s == s[..i] + [sep] + s[i + 1..];
      [s[..i]] + rest
  }

  /** Splitting undoes joining, as long as no piece holds the separator. */
  lemma {:induction false} SplitJoin(parts: seq<string>, sep: char)
    requires |parts| >= 1
    requires forall i :: 0 <= i < |parts| ==> sep !in parts[i]
    ensures Split(Join(parts, sep), sep) == parts
  {
    if |parts| > 1 {
      var s := Join(parts, sep);
      var tail := Join(parts[1..], sep);
      assert s == parts[0] + [sep] + tail;
      assert s[|parts[0]|] == sep;
      assert s[..|parts[0]|] == parts[0];
      IndexOfFirst(s, sep, |parts[0]|);
      assert s[|parts[0]| + 1..] == tail;
      SplitJoin(parts[1..], sep);
      assert parts == [parts[0]] + parts[1..];
    }
  }

  /** Joining a piece more on at the end. */
  lemma {:induction false} JoinSnoc(parts: seq<string>, x: string, sep: char)
    requires |parts| >= 1
    ensures Join(parts + [x], sep) == Join(parts, sep) + [sep] + x
  {
    assert (parts + [x])[0] == parts[0];
    if |parts| > 1 {
      assert (parts + [x])[1..] == parts[1..] + [x];
      JoinSnoc(parts[1..], x, sep);
    } else {
      assert (parts + [x])[1..] == [x];
    }
  }

  /** The text a stream holds after writing each line followed by "\n". */
  function JoinLines(lines: seq<string>): string {
    if lines == [] then [] else JoinLines(lines[..|lines| - 1]) + lines[|lines| - 1] + "\n"
  }

  /** Writing one more line appends it and its newline to the text. */
  lemma WriteLine(lines: seq<string>, line: string)
    ensures JoinLines(lines + [line]) == JoinLines(lines) + line + "\n"
  {
    assert (lines + [line])[..|lines|] == lines;
  }

  /** Writing two more lines, the second possibly blank. */
  lemma WriteTwoLines(lines: seq<string>, a: string, b: string)
    ensures JoinLines(lines + [a, b]) == JoinLines(lines) + a + "\n" + b + "\n"
  {
    assert lines + [a, b] == (lines + [a]) + [b];
    WriteLine(lines + [a], b);
    WriteLine(lines, a);
  }

  /** The lines of a file as read through a text-mode device and a line
      reader: carriage returns are dropped, lines end at "\n", and the
      empty rest after a final "\n" is not a line. */
  function ReadLines(text: string): seq<string> {
    var parts := Split(Remove(text, '\r'), '\n');
    if parts[|parts| - 1] == [] then parts[..|parts| - 1] else parts
  }

  /** Written lines are the pieces of the text between newlines, with a
      last empty piece after the final newline. */
  lemma {:induction false} JoinLinesIsJoin(lines: seq<string>)
    ensures JoinLines(lines) == Join(lines + [""], '\n')
    decreases |lines|
  {
    if lines == [] {
      assert [] + [""] == [""];
    } else {
      var init := lines[..|lines| - 1];
      var last := lines[|lines| - 1];
      JoinLinesIsJoin(init);
      assert lines == init + [last];
      assert lines + [""] == (init + [last]) + [""];
      JoinSnoc(lines, "", '\n');
      if init == [] {
        assert lines == [last];
      } else {
        JoinSnoc(init, last, '\n');
        JoinSnoc(init, "", '\n');
      }
    }
  }

  /** A character that occurs in no line occurs in the written text only if
      it is the newline. */
  lemma {:induction false} JoinLinesAvoids(lines: seq<string>, c: char)
    requires c != '\n'
    requires forall i :: 0 <= i < |lines| ==> c !in lines[i]
    ensures c !in JoinLines(lines)
    decreases |lines|
  {
    if lines != [] {
      JoinLinesAvoids(lines[..|lines| - 1], c);
    }
  }

  /** An empty piece added after lines that avoid c still avoids c. */
  lemma AvoidsWithEmpty(lines: seq<string>, c: char)
    requires forall i :: 0 <= i < |lines| ==> c !in lines[i]
    ensures forall i :: 0 <= i < |lines + [""]| ==> c !in (lines + [""])[i]
  {
    var all := lines + [""];
    forall i | 0 <= i < |all| ensures c !in all[i] {
      if i < |lines| { assert all[i] == lines[i]; }
    }
  }

  /** Reading back written lines gives the same lines, as long as none of
      them holds a line break. */
  lemma ReadWrittenLines(lines: seq<string>)
    requires forall i :: 0 <= i < |lines| ==> '\n' !in lines[i] && '\r' !in lines[i]
    ensures ReadLines(JoinLines(lines)) == lines
  {
    var all := lines + [""];
    AvoidsWithEmpty(lines, '\n');
    SplitJoin(all, '\n');
    assert all[..|all| - 1] == lines;
    JoinLinesAvoids(lines, '\r');
    JoinLinesIsJoin(lines);
  }
}
