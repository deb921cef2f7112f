/** The JavaScript string and buffer operations the core relies on,
    with the semantics of String.prototype and TypedArray.prototype. */
module JsText {
  import opened Common

  /** Every character is below 256: what btoa accepts and atob produces. */
  predicate Latin1(s: string) {
    forall i :: 0 <= i < |s| ==> s[i] as int < 256
  }

  /** `s.replace(/c+$/, '')`: the maximal run of `c` at the end of `s` is removed. */
  function StripTrailing(s: string, c: char): (r: string)
    ensures r <= s
    ensures |r| == 0 || r[|r| - 1] != c
    ensures forall i :: |r| <= i < |s| ==> s[i] == c
    decreases |s|
  {
    if |s| > 0 && s[|s| - 1] == c then StripTrailing(s[..|s| - 1], c) else s
  }

  /** `s.replace(/from/g, to)` for a one-character pattern. */
  function ReplaceAll(s: string, from: char, to: char): (r: string)
    ensures |r| == |s|
    ensures forall i :: 0 <= i < |s| && s[i] != from ==> r[i] == s[i]
    ensures forall i :: 0 <= i < |s| && s[i] == from ==> r[i] == to
  {
    seq(|s|, i requires 0 <= i < |s| => if s[i] == from then to else s[i])
  }

  /** The index of the first `c` in `s`. */
  function IndexOf(s: string, c: char): (i: nat)
    requires c in s
    ensures i < |s| && s[i] == c && c !in s[..i]
  {
    if s[0] == c then 0 else 1 + IndexOf(s[1..], c)
  }

  /** `parts.join(sep)` for a one-character separator. */
  function Join(parts: seq<string>, sep: char): string {
    if |parts| == 0 then ""
    else if |parts| == 1 then parts[0]
    else parts[0] + [sep] + Join(parts[1..], sep)
  }

  /** `s.split(sep)` for a one-character separator: the pieces between separators,
      so that joining them back gives `s`. */
  function Split(s: string, sep: char): (parts: seq<string>)
    ensures |parts| >= 1
    ensures forall k :: 0 <= k < |parts| ==> sep !in parts[k]
    ensures Join(parts, sep) == s
    decreases |s|
  {
    if sep !in s then [s]
    else
      var i := IndexOf(s, sep);
      var rest := Split(s[i + 1..], sep);
      assert ([s[..i]] + rest)[1..] == rest;
      assert s == s[..i] + [sep] + s[i + 1..];
      [s[..i]] + rest
  }

  /** Splitting a join of separator-free pieces gives the pieces back. */
  lemma {:induction false} SplitJoin(parts: seq<string>, sep: char)
    requires |parts| >= 1
    requires forall k :: 0 <= k < |parts| ==> sep !in parts[k]
    ensures Split(Join(parts, sep), sep) == parts
    decreases |parts|
  {
    if |parts| > 1 {
      var head, tail := parts[0], parts[1..];
      var s := Join(parts, sep);
      var n := |head|;
      assert s == head + [sep] + Join(tail, sep);
      LeastIndex(s, sep, head, Join(tail, sep));
      assert s[..n] == head && s[n + 1..] == Join(tail, sep);
      SplitJoin(tail, sep);
      assert Split(s, sep) == [head] + Split(Join(tail, sep), sep);
      assert [head] + tail == parts;
    }
  }

  /** The first piece of a split is the text up to the first separator, or all of it. */
  lemma SplitHead(s: string, sep: char)
    ensures var head := Split(s, sep)[0];
      head <= s && (|head| == |s| || s[|head|] == sep)
  {
  }

  /** A character in none of the pieces and other than the separator is not in their join. */
  lemma {:induction false} JoinAvoids(parts: seq<string>, sep: char, c: char)
    requires c != sep && forall k :: 0 <= k < |parts| ==> c !in parts[k]
    ensures c !in Join(parts, sep)
    decreases |parts|
  {
    if |parts| > 1 {
      JoinAvoids(parts[1..], sep, c);
      assert Join(parts, sep) == parts[0] + [sep] + Join(parts[1..], sep);
    }
  }

  /** The first separator of `head + [sep] + tail` is the one after `head`. */
  lemma LeastIndex(s: string, sep: char, head: string, tail: string)
    requires s == head + [sep] + tail && sep !in head
    ensures sep in s && IndexOf(s, sep) == |head|
  {
    assert s[|head|] == sep;
  }

  /** A JavaScript relative index: negative counts from the end, then clamped to 0..len. */
  function RelativeIndex(k: int, len: nat): (r: nat)
    ensures r <= len
  {
    if k < 0 then (if len + k < 0 then 0 else len + k)
    else if k > len then len else k
  }

  /** `s.slice(start, end)` on an ArrayBuffer, a Uint8Array or a Node Buffer, which all
      resolve relative indices and clamp them the same way. */
  function Slice<T>(s: seq<T>, start: int, end: int): (r: seq<T>)
    ensures 0 <= start <= end <= |s| ==> r == s[start..end]
    ensures RelativeIndex(end, |s|) <= RelativeIndex(start, |s|) ==> r == []
  {
    var from := RelativeIndex(start, |s|);
    var to := RelativeIndex(end, |s|);
    if from < to then s[from..to] else []
  }

  /** `s.slice(start)`. */
  function SliceFrom<T>(s: seq<T>, start: int): (r: seq<T>)
    ensures 0 <= start <= |s| ==> r == s[start..]
  {
    Slice(s, start, |s|)
  }

  /** `s.substring(start, end)`: both ends clamped to the string, then put in order. */
  function Substring(s: string, start: int, end: int): (r: string)
    ensures 0 <= start <= end <= |s| ==> r == s[start..end]
  {
    var a := if start < 0 then 0 else if start > |s| then |s| else start;
    var b := if end < 0 then 0 else if end > |s| then |s| else end;
    if a <= b then s[a..b] else s[b..a]
  }

  /** The string built by `binary += String.fromCharCode(bytes[i])` for every byte. */
  function BinaryString(bytes: seq<Byte>): (s: string)
    ensures |s| == |bytes| && Latin1(s)
  {
    seq(|bytes|, i requires 0 <= i < |bytes| => bytes[i] as char)
  }

  /** The loop `for (i ...) binary += String.fromCharCode(bytes[i])`. */
  method BinaryStringOf(bytes: seq<Byte>) returns (binary: string)
    ensures binary == BinaryString(bytes)
  {
    binary := "";
    for i := 0 to |bytes|
      invariant |binary| == i
      invariant forall k :: 0 <= k < i ==> binary[k] == bytes[k] as char
    {
      binary := binary + [bytes[i] as char];
    }
  }

  /** The bytes stored by `bytes[i] = s.charCodeAt(i)` into a Uint8Array (ToUint8). */
  function CharCodes(s: string): (bytes: seq<Byte>)
    ensures |bytes| == |s|
  {
    seq(|s|, i requires 0 <= i < |s| => (s[i] as int) % 256)
  }

  /** Reading back the char codes of a binary string gives the bytes it was built from,
      and building a binary string from the codes of a Latin-1 string gives that string. */
  lemma BinaryStringRoundTrip(bytes: seq<Byte>, s: string)
    ensures CharCodes(BinaryString(bytes)) == bytes
    ensures Latin1(s) ==> BinaryString(CharCodes(s)) == s
  {
    var codes := CharCodes(BinaryString(bytes));
    assert forall i :: 0 <= i < |bytes| ==> codes[i] == bytes[i];
    if Latin1(s) {
      var back := BinaryString(CharCodes(s));
      assert forall i :: 0 <= i < |s| ==> back[i] == s[i];
    }
  }
}
