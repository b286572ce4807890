/**
 * Line framing of the serial read loop (js/hardware-interface.js,
 * `startSerialDataCollection`): decoded text is appended to a carry-over
 * buffer, split on '\n', the last piece is kept as the new buffer and every
 * other piece that is not whitespace-only is handed on, in order.
 */
module SerialFraming {

  predicate NoNewline(s: string)
  {
    forall j :: 0 <= j < |s| ==> s[j] != '\n'
  }

  /** The pieces rejoined with '\n' between them (`Array.prototype.join('\n')`). */
  function Join(parts: seq<string>): string
    requires parts != []
  {
    if |parts| == 1 then parts[0] else parts[0] + "\n" + Join(parts[1..])
  }

  /** Index of the first '\n', or |s| when there is none. */
  function FirstNewline(s: string): (i: nat)
    ensures i <= |s|
    ensures forall j :: 0 <= j < i ==> s[j] != '\n'
    ensures i < |s| ==> s[i] == '\n'
  {
    if s == [] || s[0] == '\n' then 0 else 1 + FirstNewline(s[1..])
  }

  /**
   * `s.split('\n')`: never empty, no piece holds a newline, and joining the
   * pieces gives back `s`.
   */
  function Split(s: string): (parts: seq<string>)
    ensures parts != []
    ensures forall k :: 0 <= k < |parts| ==> NoNewline(parts[k])
    ensures Join(parts) == s
    decreases |s|
  {
    var i := FirstNewline(s);
    if i == |s| then [s]
    else
      var rest := Split(s[i + 1..]);
      assert s == s[..i] + "\n" + s[i + 1..];
      [s[..i]] + rest
  }

  /** The first newline of `a + "\n" + b` is the one after `a`, when `a` has none. */
  lemma {:induction false} FirstNewlineAfter(a: string, b: string)
    requires NoNewline(a)
    ensures FirstNewline(a + "\n" + b) == |a|
  {
    if a != [] {
      assert (a + "\n" + b)[1..] == a[1..] + "\n" + b;
      FirstNewlineAfter(a[1..], b);
    }
  }

  lemma {:induction false} FirstNewlineAbsent(a: string)
    requires NoNewline(a)
    ensures FirstNewline(a) == |a|
  {
    if a != [] {
      FirstNewlineAbsent(a[1..]);
    }
  }

  /** Splitting rejoined newline-free pieces gives the pieces back. */
  lemma {:induction false} SplitJoin(parts: seq<string>)
    requires parts != []
    requires forall k :: 0 <= k < |parts| ==> NoNewline(parts[k])
    ensures Split(Join(parts)) == parts
  {
    if |parts| == 1 {
      FirstNewlineAbsent(parts[0]);
    } else {
      var a, rest := parts[0], parts[1..];
      var s := Join(parts);
      assert s == a + "\n" + Join(rest);
      FirstNewlineAfter(a, Join(rest));
      assert s[..|a|] == a;
      assert s[|a| + 1..] == Join(rest);
      SplitJoin(rest);
    }
  }

  /**
   * What `String.prototype.trim` strips: the ECMAScript WhiteSpace code
   * points (tab, vertical tab, form feed, space, no-break space, the byte
   * order mark and the Unicode Zs category) and the line terminators.
   */
  predicate IsTrimmed(c: char)
  {
    || c == '\t' || c == '\n' || c == '\U{000B}' || c == '\U{000C}' || c == '\r' || c == ' '
    || c == '\U{00A0}' || c == '\U{1680}' || ('\U{2000}' <= c <= '\U{200A}')
    || c == '\U{2028}' || c == '\U{2029}' || c == '\U{202F}' || c == '\U{205F}'
    || c == '\U{3000}' || c == '\U{FEFF}'
  }

  /** `line.trim()` is the empty (falsy) string. */
  predicate IsBlank(line: string)
  {
    forall j :: 0 <= j < |line| ==> IsTrimmed(line[j])
  }

  /** The lines the loop hands on: the non-blank ones, in order. */
  function NonBlank(lines: seq<string>): (r: seq<string>)
    ensures |r| <= |lines|
    ensures forall k :: 0 <= k < |r| ==> !IsBlank(r[k])
    ensures (forall k :: 0 <= k < |lines| ==> !IsBlank(lines[k])) ==> r == lines
  {
    if lines == [] then []
    else
      var last := lines[|lines| - 1];
      NonBlank(lines[..|lines| - 1]) + (if IsBlank(last) then [] else [last])
  }

  /** The forwarded lines are exactly the non-blank ones. */
  lemma {:induction false} NonBlankMembers(lines: seq<string>, x: string)
    ensures x in NonBlank(lines) <==> x in lines && !IsBlank(x)
  {
    if lines != [] {
      var init, last := lines[..|lines| - 1], lines[|lines| - 1];
      NonBlankMembers(init, x);
      assert lines == init + [last];
    }
  }

  /** The read loop's carry-over buffer. */
  class SerialReader {
    var buffer: string

    predicate Valid()
      reads this
    {
      NoNewline(buffer)
    }

    constructor ()
      ensures buffer == "" && Valid()
    {
      buffer := "";
    }

    /**
     * One decoded chunk: returns the complete lines it closes (newline-free,
     * and together with the kept buffer they rejoin to the old buffer plus
     * the chunk) and keeps the unterminated tail.
     */
    method Frame(decoded: string) returns (lines: seq<string>)
      modifies this
      ensures Valid()
      ensures forall k :: 0 <= k < |lines| ==> NoNewline(lines[k])
      ensures Join(lines + [buffer]) == old(buffer) + decoded
    {
      buffer := buffer + decoded;
      var parts := Split(buffer);
      lines := parts[..|parts| - 1];
      buffer := parts[|parts| - 1];
      assert parts == lines + [buffer];
    }
  }

  /** A chunk without a newline, onto a buffer without one, closes no line and is kept whole. */
  lemma NoNewlineNoLines(lines: seq<string>, rest: string)
    requires NoNewline(Join(lines + [rest]))
    ensures lines == []
  {
    if lines != [] {
      JoinHasNewline(lines + [rest]);
    }
  }

  lemma JoinHasNewline(parts: seq<string>)
    requires |parts| > 1
    ensures |parts[0]| < |Join(parts)| && Join(parts)[|parts[0]|] == '\n'
  {
    assert Join(parts) == parts[0] + "\n" + Join(parts[1..]);
  }
}
