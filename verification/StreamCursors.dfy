/** Redis stream ids: their order and their text form. */
module StreamCursors {
  import opened Prelude

  datatype Cursor = Cursor(millis: nat, sequence: nat)

  const STREAM_CURSOR_ORIGIN := Cursor(0, 0)

  // Strictly earlier in stream order: tuples of integers, not text.
  predicate Precedes(left: Cursor, right: Cursor) {
    left.millis < right.millis || (left.millis == right.millis && left.sequence < right.sequence)
  }

  // The server keeps both halves of an id in 64 bits.
  const HALF := 0x1_0000_0000_0000_0000

  // The order is that of the ids read as one 128-bit number, the milliseconds on top.
  lemma PrecedesIsTheNumbersOrder(left: Cursor, right: Cursor)
    requires left.sequence < HALF && right.sequence < HALF
    ensures Precedes(left, right) <==> left.millis * HALF + left.sequence < right.millis * HALF + right.sequence
  {
  }

  /* ---- Text form ---- */

  const DIGITS := "0123456789"

  predicate IsDigit(c: char) { '0' <= c <= '9' }

  predicate IsNumber(s: string) { |s| > 0 && forall i :: 0 <= i < |s| ==> IsDigit(s[i]) }

  function Digits(n: nat): string {
    if n < 10 then [DIGITS[n]] else Digits(n / 10) + [DIGITS[n % 10]]
  }

  function Value(s: string): nat
    requires forall i :: 0 <= i < |s| ==> IsDigit(s[i])
  {
    if |s| == 0 then 0 else 10 * Value(s[..|s| - 1]) + DigitValue(s[|s| - 1])
  }

  function DigitValue(c: char): nat
    requires IsDigit(c)
  {
    c as int - '0' as int
  }

  function Show(c: Cursor): string { Digits(c.millis) + "-" + Digits(c.sequence) }

  // Where the first dash is, or the length.
  function Dash(s: string): (i: nat)
    ensures i <= |s| && (i < |s| ==> s[i] == '-') && forall j :: 0 <= j < i ==> s[j] != '-'
  {
    if |s| == 0 || s[0] == '-' then 0 else 1 + Dash(s[1..])
  }

  predicate IsStreamCursor(s: string) {
    var i := Dash(s);
    i < |s| && IsNumber(s[..i]) && IsNumber(s[i + 1..])
  }

  // None is the exception a text of another shape raises.
  function CursorParts(s: string): Option<Cursor> {
    var i := Dash(s);
    if i < |s| && IsNumber(s[..i]) && IsNumber(s[i + 1..]) then Some(Cursor(Value(s[..i]), Value(s[i + 1..])))
    else None
  }

  // An id is two runs of digits with one dash between them, and only such a text has parts.
  lemma CursorsAreTwoNumbers(s: string)
    ensures IsStreamCursor(s)
       <==> exists i: int :: 0 < i < |s| - 1 && s[i] == '-'
              && forall j :: 0 <= j < |s| && j != i ==> '0' <= s[j] <= '9'
    ensures CursorParts(s).Some? <==> IsStreamCursor(s)
  {
    var i := Dash(s);
    if IsStreamCursor(s) {
      forall j | 0 <= j < |s| && j != i ensures '0' <= s[j] <= '9' {
        if j < i {
          assert s[..i][j] == s[j];
        } else {
          assert s[i + 1..][j - i - 1] == s[j];
        }
      }
    }
    if k: int :| 0 < k < |s| - 1 && s[k] == '-' && forall j :: 0 <= j < |s| && j != k ==> '0' <= s[j] <= '9' {
      assert i == k;
    }
  }

  lemma {:induction false} DigitsAreTheirNumber(n: nat)
    ensures IsNumber(Digits(n)) && Value(Digits(n)) == n
  {
    hide DigitValue;
    if n < 10 {
      DigitStandsForItself(n);
      assert [DIGITS[n]][..0] == [];
    } else {
      DigitStandsForItself(n % 10);
      DigitsAreTheirNumber(n / 10);
      assert Digits(n)[..|Digits(n)| - 1] == Digits(n / 10);
    }
  }

  lemma DigitStandsForItself(n: nat)
    requires n < 10
    ensures IsDigit(DIGITS[n]) && DigitValue(DIGITS[n]) == n
  {
    assert DIGITS == ['0', '1', '2', '3', '4', '5', '6', '7', '8', '9'];
  }

  // Writing an id out and reading it back is the identity, and what is written passes for an id.
  lemma ShownCursorReadsBack(c: Cursor)
    ensures IsStreamCursor(Show(c)) && CursorParts(Show(c)) == Some(c)
  {
    hide Digits, Value;
    var left, right, text := Digits(c.millis), Digits(c.sequence), Show(c);
    DigitsAreTheirNumber(c.millis);
    DigitsAreTheirNumber(c.sequence);
    assert text[|left|] == '-';
    assert forall j :: 0 <= j < |left| ==> text[j] == left[j] && IsDigit(left[j]);
    assert Dash(text) == |left|;
    assert text[..|left|] == left && text[|left| + 1..] == right;
  }
}
