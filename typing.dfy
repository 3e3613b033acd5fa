/**
 * The synthetic typing delay that precedes every message of the gather
 * sequence: the UTF-8 byte length of the text times `MS_PER_CHAR`
 * milliseconds (Rust's `str::len` counts bytes, not characters).
 */
module TypingDelay {

  /** Time the bot takes to type one byte, in milliseconds. */
  const MS_PER_CHAR: nat := 100

  /** Number of bytes the UTF-8 encoding of `c` occupies. */
  function Utf8Width(c: char): (n: nat)
    ensures 1 <= n <= 4
    ensures n == 1 <==> c as int < 0x80
  {
    if c as int < 0x80 then 1
    else if c as int < 0x800 then 2
    else if c as int < 0x1_0000 then 3
    else 4
  }

  /** Length in bytes of the UTF-8 encoding of `s`. */
  function ByteLen(s: string): (n: nat)
    ensures |s| <= n <= 4 * |s|
  {
    if s == [] then 0 else ByteLen(s[..|s| - 1]) + Utf8Width(s[|s| - 1])
  }

  predicate IsAscii(s: string) {
    forall i :: 0 <= i < |s| ==> s[i] as int < 0x80
  }

  /** The delay before a message with text `content` is sent. */
  function Delay(content: string): (ms: nat)
    ensures MS_PER_CHAR * |content| <= ms <= 4 * MS_PER_CHAR * |content|
  {
    ByteLen(content) * MS_PER_CHAR
  }

  lemma {:induction false} ByteLenAppend(s: string, t: string)
    ensures ByteLen(s + t) == ByteLen(s) + ByteLen(t)
  {
    if t == [] {
      assert s + t == s;
    } else {
      var u := t[..|t| - 1];
      assert (s + t)[..|s + t| - 1] == s + u;
      assert (s + t)[|s + t| - 1] == t[|t| - 1];
      ByteLenAppend(s, u);
    }
  }

  /** A text is measured in characters exactly when it is plain ASCII. */
  lemma {:induction false} ByteLenAscii(s: string)
    ensures ByteLen(s) == |s| <==> IsAscii(s)
  {
    if s != [] {
      var p := s[..|s| - 1];
      ByteLenAscii(p);
      assert forall i :: 0 <= i < |p| ==> p[i] == s[i];
      assert IsAscii(s) <==> IsAscii(p) && s[|s| - 1] as int < 0x80;
    }
  }

  /** Appending text never shortens the delay; the delays of the parts add up. */
  lemma DelayAppend(s: string, t: string)
    ensures Delay(s + t) == Delay(s) + Delay(t)
    ensures Delay(s) <= Delay(s + t)
  {
    ByteLenAppend(s, t);
  }

  /** For ASCII text the delay is the character count times `MS_PER_CHAR`, so it grows with the length. */
  lemma DelayAsciiMonotone(s: string, t: string)
    requires IsAscii(s) && IsAscii(t)
    ensures Delay(s) == MS_PER_CHAR * |s| && Delay(t) == MS_PER_CHAR * |t|
    ensures |s| <= |t| ==> Delay(s) <= Delay(t)
  {
    ByteLenAscii(s);
    ByteLenAscii(t);
  }
}
