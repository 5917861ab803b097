/**
 * String helpers: Python's `" ".join`, the host's splitting of a command
 * string into words, and decimal formatting of integers for display labels.
 */
module Text {
  import opened Wrappers

  /** Python's `" ".join(parts)`. */
  function Join(parts: seq<string>): string
  {
    if |parts| == 0 then ""
    else if |parts| == 1 then parts[0]
    else parts[0] + " " + Join(parts[1..])
  }

  /** A word as the host command line sees it: non-empty and free of spaces. */
  predicate IsWord(w: string)
  {
    w != [] && ' ' !in w
  }

  /** Joining two non-empty lists puts exactly one space between their joins. */
  lemma {:induction false} JoinConcat(a: seq<string>, b: seq<string>)
    requires a != [] && b != []
    ensures Join(a + b) == Join(a) + " " + Join(b)
    decreases |a|
  {
    if |a| == 1 {
      assert (a + b)[1..] == b;
    } else {
      assert (a + b)[1..] == a[1..] + b;
      JoinConcat(a[1..], b);
    }
  }

  /** Length of the leading word of `s`, up to its first space or its end. */
  function WordLength(s: string): (n: nat)
    requires s != [] && s[0] != ' '
    ensures 1 <= n <= |s|
    ensures forall i :: 0 <= i < n ==> s[i] != ' '
    ensures n < |s| ==> s[n] == ' '
    decreases |s|
  {
    if |s| == 1 || s[1] == ' ' then 1 else 1 + WordLength(s[1..])
  }

  /** Whitespace splitting of a command string: spaces separate words, empty words are dropped. */
  function Words(s: string): (r: seq<string>)
    ensures forall i :: 0 <= i < |r| ==> IsWord(r[i])
    decreases |s|
  {
    if s == [] then []
    else if s[0] == ' ' then Words(s[1..])
    else
      var n := WordLength(s);
      assert ' ' !in s[..n] by {
        forall i | 0 <= i < n ensures s[..n][i] != ' ' { }
      }
      [s[..n]] + Words(s[n..])
  }

  /** The leading word of `w + rest` is `w` when `w` is a word and `rest` is empty or starts with a space. */
  lemma WordsOfWordThenRest(w: string, rest: string)
    requires IsWord(w)
    requires rest == [] || rest[0] == ' '
    ensures Words(w + rest) == [w] + Words(rest)
  {
    var s := w + rest;
    assert s[0] == w[0];
    assert forall i :: 0 <= i < |w| ==> s[i] == w[i];
    WordLengthOfPrefix(s, |w|);
    assert s[..|w|] == w;
    assert s[|w|..] == rest;
  }

  lemma {:induction false} WordLengthOfPrefix(s: string, k: nat)
    requires 1 <= k <= |s|
    requires forall i :: 0 <= i < k ==> s[i] != ' '
    requires k == |s| || s[k] == ' '
    ensures WordLength(s) == k
    decreases k
  {
    if k > 1 {
      WordLengthOfPrefix(s[1..], k - 1);
    }
  }

  /** Splitting a join of words gives the words back. */
  lemma {:induction false} WordsOfJoin(ws: seq<string>)
    requires forall i :: 0 <= i < |ws| ==> IsWord(ws[i])
    ensures Words(Join(ws)) == ws
    decreases |ws|
  {
    if |ws| == 1 {
      WordsOfWordThenRest(ws[0], "");
      assert ws[0] + "" == ws[0];
    } else if |ws| > 1 {
      var rest := Join(ws[1..]);
      WordsOfWordThenRest(ws[0], " " + rest);
      assert ws[0] + " " + rest == ws[0] + (" " + rest);
      assert (" " + rest)[1..] == rest;
      WordsOfJoin(ws[1..]);
    }
  }

  /**
   * A join of words is laid out with single spaces: it is empty only for no
   * words, never starts or ends with a space, and never has two spaces in a row.
   */
  lemma {:induction false} JoinOfWordsIsSpaced(ws: seq<string>)
    requires forall i :: 0 <= i < |ws| ==> IsWord(ws[i])
    ensures Join(ws) == "" <==> ws == []
    ensures Join(ws) != "" ==> Join(ws)[0] != ' ' && Join(ws)[|Join(ws)| - 1] != ' '
    ensures forall i :: 0 <= i < |Join(ws)| - 1 && Join(ws)[i] == ' ' ==> Join(ws)[i + 1] != ' '
    decreases |ws|
  {
    if |ws| > 1 {
      var w, rest := ws[0], Join(ws[1..]);
      JoinOfWordsIsSpaced(ws[1..]);
      var s := w + " " + rest;
      assert s == Join(ws);
      forall i | 0 <= i < |s| - 1 && s[i] == ' ' ensures s[i + 1] != ' ' {
        if i < |w| {
          assert false;
        } else if i > |w| {
          assert s[i] == rest[i - |w| - 1] && s[i + 1] == rest[i - |w|];
        } else {
          assert s[i + 1] == rest[0];
        }
      }
    }
  }

  /** The character for one decimal digit. */
  function DigitChar(d: nat): (c: char)
    requires d < 10
    ensures '0' <= c <= '9'
  {
    "0123456789"[d]
  }

  /** The value of a decimal digit character. */
  function DigitValue(c: char): (d: nat)
    requires '0' <= c <= '9'
    ensures d < 10
  {
    (c as int - '0' as int) as nat
  }

  predicate IsDigits(s: string)
  {
    s != [] && forall i :: 0 <= i < |s| ==> '0' <= s[i] <= '9'
  }

  /** Decimal digits of a natural number, most significant first and without leading zeros. */
  function NatDigits(n: nat): (s: string)
    ensures IsDigits(s)
    decreases n
  {
    if n < 10 then [DigitChar(n)] else NatDigits(n / 10) + [DigitChar(n % 10)]
  }

  /** The value of a string of decimal digits. */
  function DigitsValue(s: string): (n: nat)
    requires IsDigits(s)
    decreases |s|
  {
    if |s| == 1 then DigitValue(s[0])
    else DigitsValue(s[..|s| - 1]) * 10 + DigitValue(s[|s| - 1])
  }

  lemma DigitRoundTrip(d: nat)
    requires d < 10
    ensures DigitValue(DigitChar(d)) == d
  {
    assert "0123456789"[d] as int == '0' as int + d;
  }

  /** Reading back the digits of a natural number gives the number. */
  lemma {:induction false} NatDigitsRoundTrip(n: nat)
    ensures DigitsValue(NatDigits(n)) == n
    decreases n
  {
    DigitRoundTrip(n % 10);
    if n >= 10 {
      var s := NatDigits(n);
      assert s[..|s| - 1] == NatDigits(n / 10);
      NatDigitsRoundTrip(n / 10);
    }
  }

  /** Python's `"{}".format(n)` for an integer. */
  function DecimalString(n: int): (s: string)
    ensures s != [] && 'x' !in s
  {
    if n < 0 then "-" + NatDigits(-n) else NatDigits(n)
  }

  /** Reads an optionally negative decimal integer. */
  function ParseDecimal(s: string): Option<int>
  {
    if s != [] && s[0] == '-' && IsDigits(s[1..]) then Some(-(DigitsValue(s[1..]) as int))
    else if IsDigits(s) then Some(DigitsValue(s))
    else None
  }

  lemma DecimalRoundTrip(n: int)
    ensures ParseDecimal(DecimalString(n)) == Some(n)
  {
    if n < 0 {
      var s := DecimalString(n);
      assert s[1..] == NatDigits(-n);
      NatDigitsRoundTrip(-n);
    } else {
      NatDigitsRoundTrip(n);
    }
  }

  /** The `"{}x{}"` display label for a pair of integers. */
  function PairLabel(x: int, y: int): string
  {
    DecimalString(x) + "x" + DecimalString(y)
  }

  /** The position of the first occurrence of `c` in `s`, if any. */
  function IndexOf(s: string, c: char): (r: Option<nat>)
    ensures r.Some? ==> r.value < |s| && s[r.value] == c && c !in s[..r.value]
    ensures r.None? ==> c !in s
    decreases |s|
  {
    if s == [] then None
    else if s[0] == c then Some(0)
    else match IndexOf(s[1..], c)
      case None => None
      case Some(i) => assert s[1..][..i] == s[1..i + 1]; Some(i + 1)
  }

  /** Reads a `"{}x{}"` label back into its two integers. */
  function ParseLabel(s: string): Option<(int, int)>
  {
    match IndexOf(s, 'x')
    case None => None
    case Some(i) =>
      match (ParseDecimal(s[..i]), ParseDecimal(s[i + 1..]))
      case (Some(x), Some(y)) => Some((x, y))
      case _ => None
  }

  /** A display label reads back as the pair it was built from. */
  lemma LabelRoundTrip(x: int, y: int)
    ensures ParseLabel(PairLabel(x, y)) == Some((x, y))
  {
    var dx, dy := DecimalString(x), DecimalString(y);
    var s := PairLabel(x, y);
    var k := |dx|;
    assert s[k] == 'x';
    assert s[..k] == dx;
    assert s[k + 1..] == dy;
    FirstIndex(s, 'x', k);
    DecimalRoundTrip(x);
    DecimalRoundTrip(y);
  }

  lemma FirstIndex(s: string, c: char, k: nat)
    requires k < |s| && s[k] == c && c !in s[..k]
    ensures IndexOf(s, c) == Some(k)
  {
  }
}
