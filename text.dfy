/** String operations the three components rely on: case folding, substring
    search, joining with a separator and decimal rendering of integers. */
module Text {

  /** One character lower-cased; only the ASCII letters A-Z are folded. */
  function LowerChar(c: char): char
  {
    if 'A' <= c <= 'Z' then (c as int + 32) as char else c
  }

  /** `String.prototype.toLowerCase`, restricted to ASCII letters. */
  function Lower(s: string): (r: string)
    ensures |r| == |s|
    ensures forall i :: 0 <= i < |s| ==> r[i] == LowerChar(s[i])
  {
    seq(|s|, i requires 0 <= i < |s| => LowerChar(s[i]))
  }

  /** Lower-casing is idempotent, so a term that is already folded folds to itself. */
  lemma LowerIdempotent(s: string)
    ensures Lower(Lower(s)) == Lower(s)
  {
  }

  /** `hay.includes(needle)`: `needle` occurs in `hay` at some offset. The empty needle
      occurs everywhere. */
  function Contains(hay: string, needle: string): bool
  {
    |needle| <= |hay| && (hay[..|needle|] == needle || Contains(hay[1..], needle))
  }

  /** `needle` occurs in `hay` starting at offset `i`. */
  predicate OccursAt(hay: string, needle: string, i: int)
  {
    0 <= i <= |hay| - |needle| && hay[i..i + |needle|] == needle
  }

  /** The recursive search agrees with the definition by offsets, in both directions. */
  lemma {:induction false} ContainsIff(hay: string, needle: string)
    ensures Contains(hay, needle) <==> exists i :: OccursAt(hay, needle, i)
  {
    var n := |needle|;
    if n <= |hay| && hay[..n] != needle {
      ContainsIff(hay[1..], needle);
      if Contains(hay[1..], needle) {
        var i :| OccursAt(hay[1..], needle, i);
        assert hay[1..][i..i + n] == hay[i + 1..i + 1 + n];
        assert OccursAt(hay, needle, i + 1);
      }
      forall i | OccursAt(hay, needle, i) && i > 0
        ensures OccursAt(hay[1..], needle, i - 1)
      {
        assert hay[1..][i - 1..i - 1 + n] == hay[i..i + n];
      }
    } else if n <= |hay| {
      assert OccursAt(hay, needle, 0);
    }
  }

  /** Python's `sep.join(parts)`. */
  function Join(parts: seq<string>, sep: string): string
  {
    if parts == [] then ""
    else if |parts| == 1 then parts[0]
    else parts[0] + sep + Join(parts[1..], sep)
  }

  /** Joining one more part puts exactly one separator before it. */
  lemma {:induction false} JoinSnoc(parts: seq<string>, q: string, sep: string)
    ensures Join(parts + [q], sep) == if parts == [] then q else Join(parts, sep) + sep + q
  {
    if |parts| == 1 {
      assert parts + [q] == [parts[0], q];
      assert [parts[0], q][1..] == [q];
    } else if |parts| > 1 {
      assert (parts + [q])[1..] == parts[1..] + [q];
      JoinSnoc(parts[1..], q, sep);
    } else {
      assert parts + [q] == [q];
    }
  }

  function Digit(d: nat): char
    requires d < 10
  {
    ('0' as int + d) as char
  }

  predicate IsDigit(c: char) { '0' <= c <= '9' }

  /** The decimal digits of `n`, most significant first, with no leading zeros. */
  function DecimalText(n: nat): (r: string)
    ensures |r| >= 1
    ensures forall i :: 0 <= i < |r| ==> IsDigit(r[i])
    ensures n > 0 ==> r[0] != '0'
  {
    if n < 10 then [Digit(n)] else DecimalText(n / 10) + [Digit(n % 10)]
  }

  /** `Number.prototype.toString()` on an integer id. */
  function IdText(id: int): string
  {
    if id < 0 then "-" + DecimalText(-id) else DecimalText(id)
  }

  /** The value of a string of decimal digits. */
  function ParseDecimal(s: string): nat
  {
    if s == [] then 0
    else
      var c := s[|s| - 1];
      ParseDecimal(s[..|s| - 1]) * 10 + (if IsDigit(c) then c as int - '0' as int else 0)
  }

  /** Reading the rendered digits back gives the number: rendering is injective. */
  lemma {:induction false} DecimalRoundTrip(n: nat)
    ensures ParseDecimal(DecimalText(n)) == n
  {
    if n >= 10 {
      var d := DecimalText(n / 10);
      DecimalRoundTrip(n / 10);
      assert (d + [Digit(n % 10)])[..|d|] == d;
    }
  }

  /** The first character of a rendered id tells its sign. */
  lemma {:induction false} IdTextSign(id: int)
    ensures IdText(id)[0] == '-' <==> id < 0
    ensures id < 0 ==> IdText(id)[1..] == DecimalText(-id)
  {
    if id >= 0 {
      assert IsDigit(DecimalText(id)[0]);
    }
  }

  /** Distinct ids render to distinct strings. */
  lemma {:induction false} IdTextInjective(a: int, b: int)
    requires IdText(a) == IdText(b)
    ensures a == b
  {
    IdTextSign(a);
    IdTextSign(b);
    assert a < 0 <==> b < 0;
    var da, db := if a < 0 then -a else a, if b < 0 then -b else b;
    assert DecimalText(da) == DecimalText(db);
    DecimalRoundTrip(da);
    DecimalRoundTrip(db);
  }
}
