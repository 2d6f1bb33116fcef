/** String helpers with the meaning Python's `str` operations have on the
    strings this service handles: `rsplit`, `lower`, substring test, and the
    decimal text `str(int)` produces. */
module Text {
  import opened Wrappers

  /** `str.lower()` on one character, restricted to ASCII letters. */
  function LowerChar(c: char): char
  {
    if 'A' <= c <= 'Z' then (c as int + 32) as char else c
  }

  function Lower(s: string): string
  {
    seq(|s|, i requires 0 <= i < |s| => LowerChar(s[i]))
  }

  /** `s.rsplit(sep, 1)`: the text before and after the LAST occurrence of
      `sep`, or None when `sep` does not occur (Python then yields a single
      piece). */
  function RSplitOnce(s: string, sep: char): (r: Option<(string, string)>)
    ensures r.None? <==> sep !in s
    ensures r.Some? ==> s == r.value.0 + [sep] + r.value.1 && sep !in r.value.1
  {
    if |s| == 0 then None
    else
      var init, last := s[..|s| - 1], s[|s| - 1];
      assert s == init + [last];
      if last == sep then Some((init, []))
      else match RSplitOnce(init, sep)
        case None => None
        case Some(parts) =>
          assert s == parts.0 + [sep] + (parts.1 + [last]);
          Some((parts.0, parts.1 + [last]))
  }

  /** Splitting at the last separator recovers exactly the pieces a string
      was built from, provided the tail holds no separator. */
  lemma {:induction false} RSplitOnceOf(head: string, sep: char, tail: string)
    requires sep !in tail
    ensures RSplitOnce(head + [sep] + tail, sep) == Some((head, tail))
    decreases |tail|
  {
    var s := head + [sep] + tail;
    if |tail| == 0 {
      assert s[..|s| - 1] == head;
    } else {
      var init := tail[..|tail| - 1];
      assert tail == init + [tail[|tail| - 1]];
      assert s[..|s| - 1] == head + [sep] + init;
      assert sep !in init by {
        forall i | 0 <= i < |init| ensures init[i] != sep {
          assert init[i] == tail[i];
        }
      }
      RSplitOnceOf(head, sep, init);
    }
  }

  /** `needle` appears in `hay` starting at index `i`. */
  predicate MatchesAt(needle: string, hay: string, i: nat)
  {
    i + |needle| <= |hay| && hay[i..i + |needle|] == needle
  }

  /** Python's `needle in hay` for two strings. */
  ghost predicate Occurs(needle: string, hay: string)
  {
    exists i: nat :: MatchesAt(needle, hay, i)
  }

  /** Left-to-right scan for `needle` in `hay`. */
  function Search(needle: string, hay: string): bool
    decreases |hay|
  {
    if |hay| < |needle| then false
    else if hay[..|needle|] == needle then true
    else Search(needle, hay[1..])
  }

  lemma {:induction false} SearchFindsOccurrence(needle: string, hay: string)
    ensures Search(needle, hay) <==> Occurs(needle, hay)
    decreases |hay|
  {
    var n := |needle|;
    if |hay| < n {
    } else if hay[..n] == needle {
      assert MatchesAt(needle, hay, 0);
    } else {
      SearchFindsOccurrence(needle, hay[1..]);
      var tail := hay[1..];
      if Occurs(needle, hay) {
        var i: nat :| MatchesAt(needle, hay, i);
        assert i != 0;
        var a, b := tail[i - 1..i - 1 + n], hay[i..i + n];
        assert a == b by {
          forall k | 0 <= k < n ensures a[k] == b[k] {
            assert tail[i - 1 + k] == hay[i + k];
          }
        }
        assert MatchesAt(needle, tail, i - 1);
      }
      if Occurs(needle, tail) {
        var j: nat :| MatchesAt(needle, tail, j);
        var c, d := hay[j + 1..j + 1 + n], tail[j..j + n];
        assert c == d by {
          forall k | 0 <= k < n ensures c[k] == d[k] {
            assert tail[j + k] == hay[j + 1 + k];
          }
        }
        assert MatchesAt(needle, hay, j + 1);
      }
    }
  }

  predicate IsDigit(c: char)
  {
    '0' <= c <= '9'
  }

  predicate AllDigits(s: string)
  {
    forall i | 0 <= i < |s| :: IsDigit(s[i])
  }

  function DigitChar(d: nat): char
    requires d < 10
  {
    ('0' as int + d) as char
  }

  /** `str(n)` for a non-negative integer: canonical decimal, no sign, no
      leading zero except for zero itself. */
  function Decimal(n: nat): (s: string)
    ensures |s| > 0 && AllDigits(s)
    ensures s[0] == '0' <==> n == 0
    ensures s[0] == '0' ==> |s| == 1
  {
    if n < 10 then [DigitChar(n)]
    else Decimal(n / 10) + [DigitChar(n % 10)]
  }

  /** The integer a string of decimal digits denotes (`int(s)`). */
  function DecimalValue(s: string): nat
    requires AllDigits(s)
  {
    if |s| == 0 then 0
    else DecimalValue(s[..|s| - 1]) * 10 + (s[|s| - 1] as int - '0' as int)
  }

  lemma {:induction false} DecimalRoundTrip(n: nat)
    ensures DecimalValue(Decimal(n)) == n
  {
    if n >= 10 {
      var s := Decimal(n);
      assert s[..|s| - 1] == Decimal(n / 10);
      DecimalRoundTrip(n / 10);
    }
  }
}
