/** The JavaScript string operations the orchestration layer relies on:
    `startsWith`, `substring(n)`, `split("/")` with the last segment taken,
    and `trim()`. */
module JsText {

  /** `s.startsWith(prefix)`. */
  predicate StartsWith(s: string, prefix: string)
  {
    |prefix| <= |s| && s[..|prefix|] == prefix
  }

  /** `s.substring(n)` for n >= 0: JavaScript clamps the start to the length,
      so a start past the end yields the empty string instead of failing. */
  function Substring(s: string, n: nat): (r: string)
    ensures n <= |s| ==> r == s[n..]
    ensures n > |s| ==> r == ""
    ensures |r| == if n <= |s| then |s| - n else 0
  {
    if n <= |s| then s[n..] else ""
  }

  // ---------------------------------------------------------------------------
  // split("/")

  /** Joins segments with '/' between consecutive ones (the inverse of Split). */
  function Join(parts: seq<string>): string
    requires |parts| >= 1
  {
    if |parts| == 1 then parts[0] else parts[0] + "/" + Join(parts[1..])
  }

  /** `s.split("/")`: the maximal '/'-free runs of s, in order. The empty
      string splits into one empty segment and every '/' starts a new one. */
  function Split(s: string): (parts: seq<string>)
    ensures |parts| >= 1
    ensures Join(parts) == s
    ensures forall i :: 0 <= i < |parts| ==> '/' !in parts[i]
  {
    if |s| == 0 then
      [""]
    else if s[0] == '/' then
      var rest := Split(s[1..]);
      assert s == "/" + s[1..];
      [""] + rest
    else
      var rest := Split(s[1..]);
      var head := [s[0]] + rest[0];
      var parts := [head] + rest[1..];
      assert parts[1..] == rest[1..];
      assert s == [s[0]] + s[1..];
      assert Join(parts) == s by {
        if |rest| == 1 {
          assert Join(parts) == head;
        } else {
          assert Join(rest) == rest[0] + "/" + Join(rest[1..]);
          assert Join(parts) == head + "/" + Join(rest[1..]);
        }
      }
      parts
  }

  /** The last segment of a '/'-split: `parts[parts.length - 1]`. */
  function LastSegment(s: string): string
  {
    var parts := Split(s);
    parts[|parts| - 1]
  }

  /** The last part of a join is a suffix of it, and unless it is the only
      part a '/' stands right before it. */
  lemma {:induction false} JoinEndsWithLast(parts: seq<string>)
    requires |parts| >= 1
    ensures var last := parts[|parts| - 1]; var j := Join(parts);
      |last| <= |j| && j[|j| - |last|..] == last &&
      (|parts| > 1 ==> |last| < |j| && j[|j| - |last| - 1] == '/')
  {
    if |parts| > 1 {
      JoinEndsWithLast(parts[1..]);
      var tail := Join(parts[1..]);
      assert Join(parts) == parts[0] + "/" + tail;
      var last := parts[|parts| - 1];
      assert parts[1..][|parts[1..]| - 1] == last;
      var j := Join(parts);
      assert j[|j| - |tail|..] == tail;
      assert j[|j| - |last|..] == tail[|tail| - |last|..];
      if |parts[1..]| == 1 {
        assert last == tail;
        assert j[|j| - |last| - 1] == '/';
      } else {
        assert j[|j| - |last| - 1] == tail[|tail| - |last| - 1];
      }
    }
  }

  /** The last segment is the longest '/'-free suffix: it is a suffix of s,
      holds no '/', and is either all of s or preceded by a '/'. */
  lemma LastSegmentIsBasename(s: string)
    ensures var b := LastSegment(s);
      |b| <= |s| && s[|s| - |b|..] == b && '/' !in b &&
      (|b| == |s| || s[|s| - |b| - 1] == '/')
  {
    var parts := Split(s);
    JoinEndsWithLast(parts);
    if |parts| == 1 {
      assert s == parts[0];
    }
  }

  /** A string with no '/' is its own last segment. */
  lemma {:induction false} LastSegmentOfPlainName(s: string)
    requires '/' !in s
    ensures LastSegment(s) == s
  {
    LastSegmentIsBasename(s);
  }

  // ---------------------------------------------------------------------------
  // trim()

  /** The characters `String.prototype.trim` removes: ECMAScript WhiteSpace
      (tab, vertical tab, form feed, space, no-break space, byte order mark and
      the space separators of category Zs) and LineTerminator (line feed,
      carriage return, line and paragraph separators). */
  predicate IsTrimmable(c: char)
  {
    c == '\t' || c == '\n' || c == '\U{0B}' || c == '\U{0C}' || c == '\r' ||
    c == ' ' || c == '\U{A0}' || c == '\U{1680}' ||
    ('\U{2000}' <= c <= '\U{200A}') ||
    c == '\U{2028}' || c == '\U{2029}' || c == '\U{202F}' || c == '\U{205F}' ||
    c == '\U{3000}' || c == '\U{FEFF}'
  }

  /** Drops the leading trimmable characters. */
  function TrimStart(s: string): (r: string)
    ensures |r| <= |s| && r == s[|s| - |r|..]
    ensures forall i :: 0 <= i < |s| - |r| ==> IsTrimmable(s[i])
    ensures r == [] || !IsTrimmable(r[0])
  {
    if |s| > 0 && IsTrimmable(s[0]) then TrimStart(s[1..]) else s
  }

  /** Drops the trailing trimmable characters. */
  function TrimEnd(s: string): (r: string)
    ensures |r| <= |s| && r == s[..|r|]
    ensures forall i :: |r| <= i < |s| ==> IsTrimmable(s[i])
    ensures r == [] || !IsTrimmable(r[|r| - 1])
  {
    if |s| > 0 && IsTrimmable(s[|s| - 1]) then TrimEnd(s[..|s| - 1]) else s
  }

  /** `s.trim()`. */
  function Trim(s: string): string
  {
    TrimEnd(TrimStart(s))
  }

  /** How many trimmable characters lead s. */
  function LeadingTrimmable(s: string): nat
  {
    |s| - |TrimStart(s)|
  }

  /** Trimming keeps the piece of s that starts after its leading trimmable
      characters, removes only trimmable characters around it, and leaves no
      trimmable character at either end. */
  lemma TrimIsCore(s: string)
    ensures var r, i := Trim(s), LeadingTrimmable(s);
      i + |r| <= |s| && r == s[i..i + |r|] &&
      (forall k :: 0 <= k < i ==> IsTrimmable(s[k])) &&
      (forall k :: i + |r| <= k < |s| ==> IsTrimmable(s[k]))
    ensures var r := Trim(s); r == [] || (!IsTrimmable(r[0]) && !IsTrimmable(r[|r| - 1]))
  {
    var t := TrimStart(s);
    var r := TrimEnd(t);
    var i := |s| - |t|;
    assert r == s[i..i + |r|];
    forall k | i + |r| <= k < |s| ensures IsTrimmable(s[k]) {
      assert s[k] == t[k - i];
    }
    if r != [] {
      assert r[0] == t[0];
    }
  }

  /** A string without trimmable characters at its ends is left as it is. */
  lemma TrimKeepsClean(s: string)
    requires s == [] || (!IsTrimmable(s[0]) && !IsTrimmable(s[|s| - 1]))
    ensures Trim(s) == s
  {
  }

  /** Trimming twice is trimming once. */
  lemma TrimIdempotent(s: string)
    ensures Trim(Trim(s)) == Trim(s)
  {
    TrimIsCore(s);
    TrimKeepsClean(Trim(s));
  }
}
