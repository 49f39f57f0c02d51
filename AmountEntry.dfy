/** The amount string edited by the dashboard keypad: four edits (digit,
    decimal point, backspace, reset), the invariant they keep, and the
    lemmas that relate the JavaScript-style guard to that invariant. */
module AmountEntry {

  import opened Optional

  /** One keypad button. A digit button hands its label over as a string. */
  datatype Key = Digit(num: string) | Point | Backspace | Reset

  predicate IsDigitChar(c: char) {
    '0' <= c <= '9'
  }

  /** The keys the keypad can actually send: digit labels "0" to "9". */
  predicate KeypadKey(k: Key) {
    k.Digit? ==> |k.num| == 1 && IsDigitChar(k.num[0])
  }

  /** Position of the first `c` in `s`, or `|s|` when `s` holds no `c`. */
  function FirstIndex(s: string, c: char): (i: nat)
    ensures i <= |s|
    ensures i < |s| <==> c in s
    ensures i < |s| ==> s[i] == c
    ensures forall j :: 0 <= j < i ==> s[j] != c
  {
    if s == [] then 0
    else if s[0] == c then 0
    else 1 + FirstIndex(s[1..], c)
  }

  /** `s.split(".")[1]`: the text between the first "." and the next "."
      (or the end), and `None` (JavaScript's `undefined`) when `s` has no ".". */
  function SecondPiece(s: string): Option<string> {
    if '.' !in s then None
    else
      var rest := s[FirstIndex(s, '.') + 1..];
      Some(rest[..FirstIndex(rest, '.')])
  }

  /** The guard of the digit handler: the amount contains "." and the piece
      after it already has at least 3 characters. */
  predicate DigitBlocked(s: string) {
    '.' in s && SecondPiece(s).Some? && |SecondPiece(s).value| >= 3
  }

  /** Everything after the first separator; "" when there is none. */
  function Fraction(s: string): string {
    if '.' in s then s[FirstIndex(s, '.') + 1..] else ""
  }

  /** The amount invariant: only digits and ".", at most one ".", never in
      first position, and at most 3 characters after it. */
  predicate WellFormed(s: string) {
    && (forall i :: 0 <= i < |s| ==> IsDigitChar(s[i]) || s[i] == '.')
    && ('.' in s ==>
          var k := FirstIndex(s, '.');
          0 < k && '.' !in s[k + 1..] && |s| - (k + 1) <= 3)
  }

  lemma FirstIndexOfPrefix(s: string, n: nat, c: char)
    requires n <= |s| && c in s[..n]
    ensures FirstIndex(s[..n], c) == FirstIndex(s, c)
  {
    var i, k := FirstIndex(s[..n], c), FirstIndex(s, c);
    assert s[..n][i] == s[i] == c;
    assert forall j :: 0 <= j < n ==> s[..n][j] == s[j];
  }

  /** On a well-formed amount the split-based guard means exactly "three
      fractional characters already". */
  lemma GuardMeansFullFraction(s: string)
    ensures WellFormed(s) ==> (DigitBlocked(s) <==> |Fraction(s)| == 3)
  {
    if WellFormed(s) && '.' in s {
      var rest := s[FirstIndex(s, '.') + 1..];
      assert FirstIndex(rest, '.') == |rest|;
      assert rest[..|rest|] == rest;
    }
  }

  /** Digit press (handleNumberPress). */
  function AfterDigit(s: string, num: string): (r: string)
    ensures r == s || r == s + num
    ensures WellFormed(s) ==> r == if |Fraction(s)| == 3 then s else s + num
  {
    GuardMeansFullFraction(s);
    if DigitBlocked(s) then s else s + num
  }

  /** Decimal-point press (handleDecimalPress). */
  function AfterPoint(s: string): (r: string)
    ensures '.' in r
    ensures s <= r && |r| <= |s| + 2
    ensures '.' in s ==> r == s
    ensures s == "" ==> r == "0."
    ensures s != "" && '.' !in s ==> r == s + "."
  {
    if '.' in s then s
    else if s == "" then "0."
    else s + "."
  }

  /** Backspace press (handleDeletePress): `prev.slice(0, -1)`. */
  function AfterBackspace(s: string): (r: string)
    ensures r <= s
    ensures |r| == if s == "" then 0 else |s| - 1
  {
    if s == "" then "" else s[..|s| - 1]
  }

  /** Reset press (handleClearPress). */
  function AfterReset(s: string): (r: string)
    ensures r == ""
  {
    ""
  }

  function Apply(s: string, k: Key): string {
    match k
    case Digit(num) => AfterDigit(s, num)
    case Point => AfterPoint(s)
    case Backspace => AfterBackspace(s)
    case Reset => AfterReset(s)
  }

  /** The amount after pressing `keys` in order, starting from `s`. */
  function Run(s: string, keys: seq<Key>): string
    decreases |keys|
  {
    if keys == [] then s else Run(Apply(s, keys[0]), keys[1..])
  }

  lemma DigitKeepsWellFormed(s: string, num: string)
    requires WellFormed(s) && |num| == 1 && IsDigitChar(num[0])
    ensures WellFormed(AfterDigit(s, num))
  {
    var r := AfterDigit(s, num);
    if r != s {
      assert r == s + num;
      assert forall i :: 0 <= i < |r| ==> r[i] == if i < |s| then s[i] else num[0];
      if '.' in s {
        var k := FirstIndex(s, '.');
        assert r[..|s|] == s;
        FirstIndexOfPrefix(r, |s|, '.');
        assert r[k + 1..] == s[k + 1..] + num;
      } else {
        assert '.' !in r;
      }
    }
  }

  lemma PointKeepsWellFormed(s: string)
    requires WellFormed(s)
    ensures WellFormed(AfterPoint(s))
  {
    var r := AfterPoint(s);
    if '.' !in s {
      if s == "" {
        assert r == "0.";
        assert FirstIndex(r, '.') == 1;
      } else {
        assert r == s + ".";
        assert FirstIndex(r, '.') == |s|;
        assert forall i :: 0 <= i < |r| ==> r[i] == if i < |s| then s[i] else '.';
      }
    }
  }

  lemma BackspaceKeepsWellFormed(s: string)
    requires WellFormed(s)
    ensures WellFormed(AfterBackspace(s))
  {
    if s != "" {
      var r := AfterBackspace(s);
      assert r == s[..|s| - 1];
      assert forall i :: 0 <= i < |r| ==> r[i] == s[i];
      if '.' in r {
        FirstIndexOfPrefix(s, |s| - 1, '.');
        var k := FirstIndex(s, '.');
        assert r[k + 1..] == s[k + 1..|s| - 1];
      }
    }
  }

  lemma KeyKeepsWellFormed(s: string, k: Key)
    requires WellFormed(s) && KeypadKey(k)
    ensures WellFormed(Apply(s, k))
  {
    match k
    case Digit(num) => DigitKeepsWellFormed(s, num);
    case Point => PointKeepsWellFormed(s);
    case Backspace => BackspaceKeepsWellFormed(s);
    case Reset =>
  }

  /** Any sequence of keypad presses keeps the amount well formed. */
  lemma {:induction false} RunKeepsWellFormed(s: string, keys: seq<Key>)
    requires WellFormed(s)
    requires forall i :: 0 <= i < |keys| ==> KeypadKey(keys[i])
    ensures WellFormed(Run(s, keys))
    decreases |keys|
  {
    if keys != [] {
      KeyKeepsWellFormed(s, keys[0]);
      RunKeepsWellFormed(Apply(s, keys[0]), keys[1..]);
    }
  }

  /** Starting from the empty amount, every keypad sequence leaves at most
      one separator, never leading, and at most 3 fractional digits. */
  lemma KeypadAmountsAreWellFormed(keys: seq<Key>)
    requires forall i :: 0 <= i < |keys| ==> KeypadKey(keys[i])
    ensures WellFormed(Run("", keys))
    ensures |Fraction(Run("", keys))| <= 3
  {
    RunKeepsWellFormed("", keys);
  }

  /** Backspace undoes an accepted digit press. */
  lemma BackspaceUndoesDigit(s: string, num: string)
    requires |num| == 1 && !DigitBlocked(s)
    ensures AfterBackspace(AfterDigit(s, num)) == s
  {
    assert AfterDigit(s, num) == s + num;
    assert (s + num)[..|s|] == s;
  }

  /** Backspace undoes a decimal point added to a non-empty amount without one. */
  lemma BackspaceUndoesPoint(s: string)
    requires s != "" && '.' !in s
    ensures AfterBackspace(AfterPoint(s)) == s
  {
    assert AfterPoint(s) == s + ".";
    assert (s + ".")[..|s|] == s;
  }
}
