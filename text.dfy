/**
 * The string operations of the JavaScript runtime that the application relies on:
 * `split` with a one-character separator, `join`, `substring`-based truncation,
 * `String(n)`, `padStart`, ASCII lower-casing and `includes`.
 */
module Text {

  // ---------------------------------------------------------------------------
  // split / join
  // ---------------------------------------------------------------------------

  /**
   * `s.split(sep)` for a one-character separator: the pieces between separators,
   * with an empty piece for each leading, trailing or doubled separator; the empty
   * string splits into one empty piece.
   */
  function Split(s: string, sep: char): (pieces: seq<string>)
    ensures |pieces| >= 1
    ensures forall i :: 0 <= i < |pieces| ==> sep !in pieces[i]
    decreases |s|
  {
    if s == [] then [[]]
    else
      var prev := Split(s[..|s| - 1], sep);
      var c := s[|s| - 1];
      if c == sep then prev + [[]]
      else prev[..|prev| - 1] + [prev[|prev| - 1] + [c]]
  }

  /** `parts.join(sep)`. */
  function Join(parts: seq<string>, sep: string): string
  {
    if |parts| == 0 then []
    else if |parts| == 1 then parts[0]
    else Join(parts[..|parts| - 1], sep) + sep + parts[|parts| - 1]
  }

  /** Joining the pieces of a split with the separator gives the string back. */
  lemma {:induction false} JoinSplit(s: string, sep: char)
    ensures Join(Split(s, sep), [sep]) == s
    decreases |s|
  {
    if s != [] {
      var init := s[..|s| - 1];
      var c := s[|s| - 1];
      var prev := Split(init, sep);
      JoinSplit(init, sep);
      var n := |prev|;
      if c == sep {
        var q := prev + [[]];
        assert q[..|q| - 1] == prev;
        assert Join(q, [sep]) == init + [sep] + [];
      } else {
        var q := prev[..n - 1] + [prev[n - 1] + [c]];
        if n == 1 {
          assert Join(q, [sep]) == prev[0] + [c];
        } else {
          assert q[..|q| - 1] == prev[..n - 1];
          assert Join(q, [sep]) == Join(prev[..n - 1], [sep]) + [sep] + (prev[n - 1] + [c]);
        }
      }
      assert s == init + [c];
    }
  }

  /** A string without the separator is a single piece. */
  lemma {:induction false} SplitNoSeparator(s: string, sep: char)
    requires sep !in s
    ensures Split(s, sep) == [s]
    decreases |s|
  {
    if s != [] {
      assert sep !in s[..|s| - 1];
      SplitNoSeparator(s[..|s| - 1], sep);
      assert s[..|s| - 1] + [s[|s| - 1]] == s;
    }
  }

  /** Appending a separator and a separator-free tail adds exactly one piece. */
  lemma {:induction false} SplitAppend(x: string, sep: char, y: string)
    requires sep !in y
    ensures Split(x + [sep] + y, sep) == Split(x, sep) + [y]
    decreases |y|
  {
    if y == [] {
      assert (x + [sep] + y)[..|x + [sep] + y| - 1] == x;
    } else {
      var y' := y[..|y| - 1];
      var s := x + [sep] + y;
      assert s[..|s| - 1] == x + [sep] + y';
      assert sep !in y';
      SplitAppend(x, sep, y');
      assert y' + [y[|y| - 1]] == y;
    }
  }

  /** Splitting a join of separator-free pieces gives the pieces back. */
  lemma {:induction false} SplitJoin(parts: seq<string>, sep: char)
    requires |parts| >= 1
    requires forall i :: 0 <= i < |parts| ==> sep !in parts[i]
    ensures Split(Join(parts, [sep]), sep) == parts
    decreases |parts|
  {
    if |parts| == 1 {
      SplitNoSeparator(parts[0], sep);
    } else {
      var init := parts[..|parts| - 1];
      SplitJoin(init, sep);
      SplitAppend(Join(init, [sep]), sep, parts[|parts| - 1]);
      assert init + [parts[|parts| - 1]] == parts;
    }
  }

  /** Joining one more part: the join grows by the separator and that part. */
  lemma JoinSnoc(parts: seq<string>, sep: string, x: string)
    requires |parts| >= 1
    ensures Join(parts + [x], sep) == Join(parts, sep) + sep + x
  {
    assert (parts + [x])[..|parts|] == parts;
  }

  // ---------------------------------------------------------------------------
  // length in UTF-16 code units
  // ---------------------------------------------------------------------------

  /** A character outside the Basic Multilingual Plane takes a surrogate pair. */
  function CodeUnits(c: char): nat
  {
    if c as int >= 0x1_0000 then 2 else 1
  }

  /** JavaScript's `.length`: the number of UTF-16 code units of the text. */
  function Utf16Length(s: string): nat
    decreases |s|
  {
    if s == [] then 0 else Utf16Length(s[..|s| - 1]) + CodeUnits(s[|s| - 1])
  }

  lemma {:induction false} Utf16LengthAppend(a: string, b: string)
    ensures Utf16Length(a + b) == Utf16Length(a) + Utf16Length(b)
    decreases |b|
  {
    if b != [] {
      assert (a + b)[..|a + b| - 1] == a + b[..|b| - 1];
      Utf16LengthAppend(a, b[..|b| - 1]);
    } else {
      assert a + b == a;
    }
  }

  /**
   * A text has between one and two code units per character, and exactly one when
   * every character lies in the Basic Multilingual Plane.
   */
  lemma {:induction false} Utf16LengthBounds(s: string)
    ensures |s| <= Utf16Length(s) <= 2 * |s|
    ensures (forall i :: 0 <= i < |s| ==> s[i] as int < 0x1_0000) <==> Utf16Length(s) == |s|
    decreases |s|
  {
    if s != [] {
      var init := s[..|s| - 1];
      Utf16LengthBounds(init);
      if forall i :: 0 <= i < |init| ==> init[i] as int < 0x1_0000 {
        if s[|s| - 1] as int < 0x1_0000 {
          forall i | 0 <= i < |s| ensures s[i] as int < 0x1_0000 {
            if i < |init| { assert s[i] == init[i]; }
          }
        }
      } else {
        var i :| 0 <= i < |init| && init[i] as int >= 0x1_0000;
        assert s[i] == init[i];
      }
    }
  }

  // ---------------------------------------------------------------------------
  // truncation
  // ---------------------------------------------------------------------------

  /**
   * `if (t.length > max) t = t.substring(0, max - 3) + '...'`: a text longer than
   * `max` keeps its first `max - 3` characters and ends in an ellipsis.
   */
  function Truncate(s: string, max: nat): (r: string)
    requires max >= 3
    ensures |s| <= max ==> r == s
    ensures |s| > max ==> |r| == max && r[..max - 3] == s[..max - 3] && r[max - 3..] == "..."
    ensures |r| <= max || r == s
  {
    if |s| > max then s[..max - 3] + "..." else s
  }

  // ---------------------------------------------------------------------------
  // numbers as text
  // ---------------------------------------------------------------------------

  predicate IsDigit(c: char) { '0' <= c <= '9' }

  predicate AllDigits(s: string) { forall i :: 0 <= i < |s| ==> IsDigit(s[i]) }

  function DigitChar(d: nat): char
    requires d < 10
  {
    ('0' as int + d) as char
  }

  /** `String(n)` for a non-negative integer: its decimal digits, no leading zero. */
  function NatToString(n: nat): (r: string)
    ensures |r| >= 1 && AllDigits(r)
    ensures |r| > 1 ==> r[0] != '0'
  {
    if n < 10 then [DigitChar(n)] else NatToString(n / 10) + [DigitChar(n % 10)]
  }

  lemma AllDigitsAppend(a: string, b: string)
    requires AllDigits(a) && AllDigits(b)
    ensures AllDigits(a + b)
  {
  }

  /** The number a string of decimal digits denotes. */
  function DigitsValue(s: string): nat
    requires AllDigits(s)
  {
    if s == [] then 0 else DigitsValue(s[..|s| - 1]) * 10 + (s[|s| - 1] as int - '0' as int)
  }

  /** Reading back the digits of `String(n)` gives `n`. */
  lemma {:induction false} NatToStringValue(n: nat)
    ensures DigitsValue(NatToString(n)) == n
  {
    if n >= 10 {
      NatToStringValue(n / 10);
      var s := NatToString(n);
      assert s[..|s| - 1] == NatToString(n / 10);
    }
  }

  /** The number of decimal digits `String(n)` has. */
  lemma {:induction false} NatToStringLength(n: nat)
    ensures n < 10 ==> |NatToString(n)| == 1
    ensures 10 <= n < 100 ==> |NatToString(n)| == 2
    ensures 100 <= n < 1000 ==> |NatToString(n)| == 3
    ensures 1000 <= n < 10000 ==> |NatToString(n)| == 4
  {
    if n >= 10 {
      NatToStringLength(n / 10);
    }
  }

  /** A leading zero does not change the value of a digit string. */
  lemma {:induction false} LeadingZeroValue(s: string)
    requires AllDigits(s)
    ensures AllDigits("0" + s) && DigitsValue("0" + s) == DigitsValue(s)
    decreases |s|
  {
    if s != [] {
      var t := "0" + s;
      assert t[..|t| - 1] == "0" + s[..|s| - 1];
      LeadingZeroValue(s[..|s| - 1]);
    }
  }

  /** `s.padStart(len, fill)`. */
  function PadStart(s: string, len: nat, fill: char): (r: string)
    ensures |r| == if |s| >= len then |s| else len
    ensures r[|r| - |s|..] == s
    ensures forall i :: 0 <= i < |r| - |s| ==> r[i] == fill
  {
    if |s| >= len then s else seq(len - |s|, _ => fill) + s
  }

  /** `String(n).padStart(2, '0')`. */
  function Pad2(n: nat): string
  {
    PadStart(NatToString(n), 2, '0')
  }

  /** Below 100, the padded form has exactly two digits and denotes `n`. */
  lemma Pad2Value(n: nat)
    requires n < 100
    ensures |Pad2(n)| == 2 && AllDigits(Pad2(n)) && DigitsValue(Pad2(n)) == n
  {
    NatToStringLength(n);
    NatToStringValue(n);
    if n < 10 {
      assert Pad2(n) == "0" + NatToString(n);
      LeadingZeroValue(NatToString(n));
    }
  }

  // ---------------------------------------------------------------------------
  // lower case and substring search
  // ---------------------------------------------------------------------------

  function LowerChar(c: char): char
  {
    if 'A' <= c <= 'Z' then (c as int + 32) as char else c
  }

  /** `toLowerCase`, on the ASCII letters. */
  function Lower(s: string): (r: string)
    ensures |r| == |s|
    ensures forall i :: 0 <= i < |s| ==> r[i] == LowerChar(s[i])
  {
    seq(|s|, i requires 0 <= i < |s| => LowerChar(s[i]))
  }

  /** `hay.includes(needle)`. */
  predicate Contains(hay: string, needle: string)
    decreases |hay|
  {
    needle <= hay || (hay != [] && Contains(hay[1..], needle))
  }

  /** The needle occurs in the haystack starting at position `i`. */
  predicate OccursAt(hay: string, needle: string, i: int)
  {
    0 <= i <= |hay| - |needle| && hay[i..i + |needle|] == needle
  }

  /** `includes` holds exactly when the needle occurs at some position. */
  lemma {:induction false} ContainsAt(hay: string, needle: string)
    ensures Contains(hay, needle) <==> exists i :: OccursAt(hay, needle, i)
    decreases |hay|
  {
    if hay != [] {
      ContainsAt(hay[1..], needle);
      if needle <= hay {
        assert OccursAt(hay, needle, 0);
      } else if Contains(hay[1..], needle) {
        var i :| OccursAt(hay[1..], needle, i);
        assert hay[i + 1..i + 1 + |needle|] == hay[1..][i..i + |needle|];
        assert OccursAt(hay, needle, i + 1);
      }
      if exists i :: OccursAt(hay, needle, i) {
        var i :| OccursAt(hay, needle, i);
        if i > 0 {
          assert hay[1..][i - 1..i - 1 + |needle|] == hay[i..i + |needle|];
          assert OccursAt(hay[1..], needle, i - 1);
        } else {
          assert needle <= hay;
        }
      }
    } else {
      if exists i :: OccursAt(hay, needle, i) {
        var i :| OccursAt(hay, needle, i);
        assert needle == [];
      } else {
        assert !OccursAt(hay, needle, 0);
      }
    }
  }
}
