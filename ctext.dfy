/**
 * C text primitives shared by the configuration, key and topic modules:
 * NUL-terminated strings, the C-locale character classes, the `strncmp`
 * and `strstr` tests the sources use, two-digit hex rendering and the
 * `snprintf` call every builder makes.
 */
module CText {

  /** A C pointer that may be NULL. */
  datatype Option<+T> = None | Some(value: T)

  /** A `uint8_t`. */
  type byte = x: int | 0 <= x < 256

  /** The largest `int`, the return type of `snprintf`. */
  const IntMax: int := 0x7FFF_FFFF

  /**
   * The bytes of a NUL-terminated string before its terminator. Each
   * character stands for one byte (code point 0x01..0xFF); none is NUL,
   * so `strlen` of the string is its length.
   */
  predicate IsCStr(s: seq<char>)
  {
    forall i | 0 <= i < |s| :: '\0' < s[i] <= '\U{FF}'
  }

  type CStr = s: seq<char> | IsCStr(s)

  /** `isdigit` in the C locale. */
  predicate IsDigit(c: char)
  {
    '0' <= c <= '9'
  }

  /** `isalnum` in the C locale: `[A-Za-z0-9]`. */
  predicate IsAlnum(c: char)
  {
    IsDigit(c) || 'A' <= c <= 'Z' || 'a' <= c <= 'z'
  }

  /** `isxdigit` in the C locale: `[0-9A-Fa-f]`. */
  predicate IsXDigit(c: char)
  {
    IsDigit(c) || 'A' <= c <= 'F' || 'a' <= c <= 'f'
  }

  /** `strncmp(s, p, strlen(p)) == 0`: `s` begins with `p`, byte for byte. */
  predicate StartsWith(s: seq<char>, p: seq<char>)
  {
    |p| <= |s| && s[..|p|] == p
  }

  predicate OccursAt(s: seq<char>, t: seq<char>, i: int)
  {
    0 <= i && i + |t| <= |s| && s[i..i + |t|] == t
  }

  /** `strstr(s, t) != NULL`: `t` occurs somewhere in `s`. */
  predicate Contains(s: seq<char>, t: seq<char>)
  {
    exists i | 0 <= i <= |s| - |t| :: OccursAt(s, t, i)
  }

  /** The value of one hex digit, either case, as `sscanf("%x")` reads it. */
  function HexValue(c: char): (v: nat)
    requires IsXDigit(c)
    ensures v < 16
  {
    if IsDigit(c) then c as int - '0' as int
    else if 'a' <= c <= 'f' then c as int - 'a' as int + 10
    else c as int - 'A' as int + 10
  }

  /** The lower-case hex digit of `n`, as `printf("%x")` writes it. */
  function HexDigit(n: nat): (c: char)
    requires n < 16
    ensures IsXDigit(c) && HexValue(c) == n
    ensures !('A' <= c <= 'F')
  {
    if n < 10 then ('0' as int + n) as char else ('a' as int + n - 10) as char
  }

  /** `printf("%02x", b)`: a byte as two lower-case hex digits, high nibble first. */
  function Hex2(b: byte): (s: CStr)
    ensures |s| == 2 && IsXDigit(s[0]) && IsXDigit(s[1])
    ensures 16 * HexValue(s[0]) + HexValue(s[1]) == b
  {
    [HexDigit(b / 16), HexDigit(b % 16)]
  }

  /**
   * Whether `snprintf` into a buffer of `bufLen` bytes reports success for
   * an output of `s`: the output and its terminator fit, and its length
   * is representable as the `int` `snprintf` returns.
   */
  predicate Fits(s: CStr, bufLen: nat)
  {
    |s| < bufLen && |s| <= IntMax
  }

  /**
   * `len = snprintf(buf, buf_len, ...)` with output `s`, followed by the
   * check every caller makes, `if (len < 0 || (size_t)len >= buf_len)
   * return -1;`. On success the buffer holds `s` and its terminator and
   * nothing after them has changed; on failure the result is -1.
   */
  method WriteIfFits(buf: array<char>, bufLen: nat, s: CStr) returns (len: int)
    requires bufLen <= buf.Length
    modifies buf
    ensures len == (if Fits(s, bufLen) then |s| else -1)
    ensures Fits(s, bufLen) ==> buf[..] == s + ['\0'] + old(buf[|s| + 1..])
  {
    if |s| <= IntMax && |s| < bufLen {
      forall i | 0 <= i < |s| {
        buf[i] := s[i];
      }
      buf[|s|] := '\0';
      len := |s|;
    } else {
      len := -1;
    }
  }
}
