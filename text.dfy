/**
 * The text primitives the analyzer builds its output from: Python's `hex()` and
 * `str()` on non-negative integers, and the comma-separated appends done by
 * `add_action` / `add_description` (HighLevelAnalyzer.py:498-509).
 */
module Text {
  import opened Wrappers

  const DIGIT_CHARS: string := "0123456789abcdef"

  /** The lower-case digit character for d, as Python's `hex()` and `str()` print it. */
  function DigitChar(d: nat): char
    requires d < 16
  {
    DIGIT_CHARS[d]
  }

  /** Inverse of DigitChar on its range. */
  function DigitValue(c: char): (r: Option<nat>)
    ensures r.Some? ==> r.value < 16 && DigitChar(r.value) == c
  {
    if '0' <= c <= '9' then Some(c as nat - '0' as nat)
    else if 'a' <= c <= 'f' then Some(c as nat - 'a' as nat + 10)
    else None
  }

  /**
   * The numeral of n in the given base, most significant digit first, with no
   * leading zero (zero itself is "0").
   */
  function Digits(n: nat, base: nat): (s: string)
    requires 2 <= base <= 16
    ensures |s| >= 1
    decreases n
  {
    if n < base then [DigitChar(n)] else Digits(n / base, base) + [DigitChar(n % base)]
  }

  /** Python's `hex(n)` for n >= 0: "0x" then lower-case hex digits, unpadded. */
  function Hex(n: nat): string
  {
    "0x" + Digits(n, 16)
  }

  /** Python's `str(n)` for an integer n >= 0. */
  function Str(n: nat): string
  {
    Digits(n, 10)
  }

  /** Reads a numeral back: the value of a non-empty digit string in the given base. */
  function ParseDigits(s: string, base: nat): Option<nat>
    requires 2 <= base <= 16
    decreases |s|
  {
    if |s| == 0 then None
    else
      var d := DigitValue(s[|s| - 1]);
      if d.None? || d.value >= base then None
      else if |s| == 1 then d
      else match ParseDigits(s[..|s| - 1], base)
        case None => None
        case Some(v) => Some(v * base + d.value)
  }

  /** Reads back the text of Python's `hex()`. */
  function ParseHex(s: string): Option<nat>
  {
    if |s| >= 2 && s[..2] == "0x" then ParseDigits(s[2..], 16) else None
  }

  /** Each digit character reads back to its digit. */
  lemma DigitValueOfChar(d: nat)
    requires d < 16
    ensures DigitValue(DigitChar(d)) == Some(d)
  {
    assert DIGIT_CHARS == ['0', '1', '2', '3', '4', '5', '6', '7', '8', '9', 'a', 'b', 'c', 'd', 'e', 'f'];
    if d < 10 {
      assert DigitChar(d) as nat == '0' as nat + d;
    } else {
      assert DigitChar(d) as nat == 'a' as nat + d - 10;
    }
  }

  lemma {:induction false} DigitsRoundTrip(n: nat, base: nat)
    requires 2 <= base <= 16
    ensures ParseDigits(Digits(n, base), base) == Some(n)
    decreases n
  {
    if n < base {
      DigitValueOfChar(n);
    } else {
      var q, d := n / base, n % base;
      DivMod(n, base);
      assert q < n;
      var head := Digits(q, base);
      var s := head + [DigitChar(d)];
      assert Digits(n, base) == s;
      DigitsRoundTrip(q, base);
      DigitValueOfChar(d);
      assert s[..|s| - 1] == head;
      assert ParseDigits(s, base) == Some(q * base + d);
    }
  }

  lemma DivMod(n: nat, base: nat)
    requires base > 0
    ensures (n / base) * base + n % base == n
    ensures base >= 2 && n > 0 ==> n / base < n
  {
  }

  /** `hex()` text is read back to the number it was printed from. */
  lemma HexRoundTrip(n: nat)
    ensures ParseHex(Hex(n)) == Some(n)
  {
    var s := Hex(n);
    assert s[..2] == "0x";
    assert s[2..] == Digits(n, 16);
    DigitsRoundTrip(n, 16);
  }

  /** Distinct numbers print distinctly under `hex()`, so keying by byte value equals keying by `hex()` text. */
  lemma HexInjective(m: nat, n: nat)
    ensures Hex(m) == Hex(n) <==> m == n
  {
    if Hex(m) == Hex(n) {
      HexRoundTrip(m);
      HexRoundTrip(n);
    }
  }

  /** Distinct numbers print distinctly under `str()`. */
  lemma StrInjective(m: nat, n: nat)
    ensures Str(m) == Str(n) <==> m == n
  {
    if Str(m) == Str(n) {
      DigitsRoundTrip(m, 10);
      DigitsRoundTrip(n, 10);
    }
  }

  /** `str()` text is read back, in base ten, to the number it was printed from. */
  lemma StrRoundTrip(n: nat)
    ensures ParseDigits(Str(n), 10) == Some(n)
  {
    DigitsRoundTrip(n, 10);
  }

  /** The numeral has no leading zero: it starts with '0' only for zero. */
  lemma {:induction false} DigitsNoLeadingZero(n: nat, base: nat)
    requires 2 <= base <= 16
    ensures Digits(n, base)[0] == '0' <==> n == 0
    decreases n
  {
    if n >= base {
      QuotientPositive(n, base);
      DigitsNoLeadingZero(n / base, base);
      assert Digits(n, base)[0] == Digits(n / base, base)[0];
    } else {
      DigitCharZero(n);
    }
  }

  lemma QuotientPositive(n: nat, base: nat)
    requires 2 <= base <= n
    ensures n / base >= 1
  {
    assert n == base * (n / base) + n % base;
  }

  lemma DigitCharZero(d: nat)
    requires d < 16
    ensures DigitChar(d) == '0' <==> d == 0
  {
    assert DIGIT_CHARS[0] == '0';
  }

  /**
   * `add_action` / `add_description`: append `text` to a field, preceded by the
   * separator ", " exactly when the field already holds text.
   */
  function Join(field: string, text: string): string
  {
    if |field| > 0 then field + ", " + text else text
  }

  /**
   * A separated append keeps what the field held as a prefix, ends with the
   * new text, and adds the separator's two characters only to a non-empty field.
   */
  lemma JoinShape(field: string, text: string)
    ensures field <= Join(field, text)
    ensures Join(field, text)[|Join(field, text)| - |text|..] == text
    ensures |Join(field, text)| == |field| + |text| + (if |field| > 0 then 2 else 0)
    ensures |field| > 0 ==> Join(field, text)[|field|..|field| + 2] == ", "
  {
  }

  /** A run of `add_*` appends, in order. */
  function JoinAll(field: string, texts: seq<string>): string
    decreases |texts|
  {
    if texts == [] then field else Join(JoinAll(field, texts[..|texts| - 1]), texts[|texts| - 1])
  }

  /** The clauses joined with ", ", as the comma-separated field shows them. */
  function Joined(texts: seq<string>): string
    decreases |texts|
  {
    if texts == [] then ""
    else if |texts| == 1 then texts[0]
    else Joined(texts[..|texts| - 1]) + ", " + texts[|texts| - 1]
  }

  /** Appending clauses one by one to an empty field yields them separated by ", ",
      provided none of them is empty (an empty first clause swallows the next separator). */
  lemma {:induction false} JoinAllFromEmpty(texts: seq<string>)
    requires forall i :: 0 <= i < |texts| ==> texts[i] != ""
    ensures JoinAll("", texts) == Joined(texts)
    decreases |texts|
  {
    if texts != [] {
      var init := texts[..|texts| - 1];
      JoinAllFromEmpty(init);
      if |texts| > 1 {
        assert JoinAll("", init) == Joined(init);
        assert |Joined(init)| > 0 by { JoinedNonEmpty(init); }
      }
    }
  }

  lemma {:induction false} JoinedNonEmpty(texts: seq<string>)
    requires texts != []
    requires forall i :: 0 <= i < |texts| ==> texts[i] != ""
    ensures |Joined(texts)| > 0
    decreases |texts|
  {
    if |texts| > 1 {
      JoinedNonEmpty(texts[..|texts| - 1]);
    }
  }

  /** Appending a run of clauses after another run equals appending their concatenation. */
  lemma {:induction false} JoinAllAppend(field: string, a: seq<string>, b: seq<string>)
    ensures JoinAll(JoinAll(field, a), b) == JoinAll(field, a + b)
    decreases |b|
  {
    if b == [] {
      assert a + b == a;
    } else {
      var b' := b[..|b| - 1];
      JoinAllAppend(field, a, b');
      assert (a + b)[..|a + b| - 1] == a + b';
    }
  }

  /** A separated append followed by a plain append is one separated append of both. */
  lemma JoinThenAppend(field: string, text: string, more: string)
    ensures Join(field, text) + more == Join(field, text + more)
  {
  }

  /** One more separated append after a run of them: the run, one clause longer. */
  lemma JoinAllSnoc(field: string, done: seq<string>, text: string)
    ensures JoinAll(field, done + [text]) == Join(JoinAll(field, done), text)
  {
    assert (done + [text])[..|done + [text]| - 1] == done;
  }

  /**
   * A run of separated appends keeps what the field held as a prefix, ends with
   * the last clause, and on a non-empty field adds at least a separator per clause.
   */
  lemma {:induction false} JoinAllShape(field: string, texts: seq<string>)
    ensures field <= JoinAll(field, texts)
    ensures texts != [] ==> JoinAll(field, texts)[|JoinAll(field, texts)| - |texts[|texts| - 1]|..] == texts[|texts| - 1]
    ensures field != "" ==> |JoinAll(field, texts)| >= |field| + 2 * |texts|
    decreases |texts|
  {
    if texts != [] {
      var init := texts[..|texts| - 1];
      JoinAllShape(field, init);
      JoinShape(JoinAll(field, init), texts[|texts| - 1]);
      if init == [] {
        assert JoinAll(field, init) == field;
      }
    }
  }
}
