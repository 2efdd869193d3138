/**
 * The pure string helpers behind company creation: the whitespace
 * collapsing applied to the company name, the decimal rendering of the
 * random disambiguator, the object key built from both, and the public
 * address of an uploaded logo.
 */
module Naming {
  import opened Wrappers

  /** The bucket every company logo is uploaded to. */
  const Bucket: string := "company-logo"
  /** The fixed start of every object key. */
  const KeyPrefix: string := "logo-"
  /** The path the object store serves public objects under. */
  const PublicPath: string := "/storage/v1/object/public/"
  /** Exclusive upper bound of the random disambiguator. */
  const RandomBound: nat := 90000

  // ---------------------------------------------------------------------
  // Whitespace and name sanitisation
  // ---------------------------------------------------------------------

  /**
   * The characters the ECMAScript class `\s` matches: the WhiteSpace
   * characters (tab, vertical tab, form feed, space, no-break space, the
   * byte order mark and the Unicode space separators) and the
   * LineTerminator characters.
   */
  predicate IsWhitespace(c: char)
    ensures c == ' ' || c == '\t' || c == '\n' || c == '\r' ==> IsWhitespace(c)
    ensures IsWhitespace(c) ==> c != '-' && !('0' <= c <= '9')
  {
    || ('\t' <= c <= '\r')
    || c == ' '
    || c == '\U{A0}'
    || c == '\U{1680}'
    || ('\U{2000}' <= c <= '\U{200A}')
    || c == '\U{2028}' || c == '\U{2029}'
    || c == '\U{202F}' || c == '\U{205F}'
    || c == '\U{3000}'
    || c == '\U{FEFF}'
  }

  predicate NoWhitespace(s: string) {
    forall i :: 0 <= i < |s| ==> !IsWhitespace(s[i])
  }

  predicate AllWhitespace(s: string) {
    forall i :: 0 <= i < |s| ==> IsWhitespace(s[i])
  }

  /** Drops the whitespace run at the start of `s`. */
  function DropWhitespace(s: string): (r: string)
    ensures |r| <= |s|
    ensures r == [] || !IsWhitespace(r[0])
  {
    if s != [] && IsWhitespace(s[0]) then DropWhitespace(s[1..]) else s
  }

  /**
   * The name with every maximal run of whitespace replaced by one `-`,
   * scanning left to right as a global regular-expression replacement of
   * `\s+` does.
   */
  function Sanitize(s: string): (r: string)
    ensures |r| <= |s|
    decreases |s|
  {
    if s == [] then []
    else if IsWhitespace(s[0]) then "-" + Sanitize(DropWhitespace(s[1..]))
    else [s[0]] + Sanitize(s[1..])
  }

  lemma {:induction false} DropAllWhitespace(w: string, b: string)
    requires AllWhitespace(w)
    requires b == [] || !IsWhitespace(b[0])
    ensures DropWhitespace(w + b) == b
  {
    if w != [] {
      assert (w + b)[1..] == w[1..] + b;
      DropAllWhitespace(w[1..], b);
    }
  }

  lemma {:induction false} DropWhitespaceAppend(x: string, y: string)
    ensures DropWhitespace(x + y) == if AllWhitespace(x) then DropWhitespace(y) else DropWhitespace(x) + y
  {
    if x != [] {
      assert (x + y)[1..] == x[1..] + y;
      DropWhitespaceAppend(x[1..], y);
    } else {
      assert x + y == y;
    }
  }

  /** No whitespace survives sanitising. */
  lemma {:induction false} SanitizeRemovesWhitespace(s: string)
    ensures NoWhitespace(Sanitize(s))
    decreases |s|
  {
    if s != [] {
      if IsWhitespace(s[0]) {
        SanitizeRemovesWhitespace(DropWhitespace(s[1..]));
      } else {
        SanitizeRemovesWhitespace(s[1..]);
      }
    }
  }

  /** A name without whitespace is left as it is. */
  lemma {:induction false} SanitizeKeepsWord(s: string)
    requires NoWhitespace(s)
    ensures Sanitize(s) == s
  {
    if s != [] {
      SanitizeKeepsWord(s[1..]);
    }
  }

  /** A whitespace run followed by a word boundary becomes exactly one `-`. */
  lemma SanitizeRun(w: string, b: string)
    requires w != [] && AllWhitespace(w)
    requires b == [] || !IsWhitespace(b[0])
    ensures Sanitize(w + b) == "-" + Sanitize(b)
  {
    var s := w + b;
    assert s[0] == w[0];
    assert s[1..] == w[1..] + b;
    assert AllWhitespace(w[1..]) by {
      forall i | 0 <= i < |w[1..]| ensures IsWhitespace(w[1..][i]) {
        assert w[1..][i] == w[i + 1];
      }
    }
    DropAllWhitespace(w[1..], b);
    assert DropWhitespace(s[1..]) == b;
  }

  /**
   * A character that is not whitespace splits the name: what lies on either
   * side of it is sanitised independently, and the character itself is kept.
   */
  lemma {:induction false} SanitizeSplit(a: string, c: char, b: string)
    requires !IsWhitespace(c)
    ensures Sanitize(a + [c] + b) == Sanitize(a) + [c] + Sanitize(b)
    decreases |a|, 1
  {
    if a == [] {
      assert a + [c] + b == [c] + b;
      assert ([c] + b)[1..] == b;
    } else if !IsWhitespace(a[0]) {
      assert (a + [c] + b)[0] == a[0];
      assert (a + [c] + b)[1..] == a[1..] + [c] + b;
      SanitizeSplit(a[1..], c, b);
    } else if AllWhitespace(a) {
      SanitizeSplitAfterRun(a, c, b);
    } else {
      SanitizeSplitRunThenWord(a, c, b);
    }
  }

  /** `SanitizeSplit` when everything before the split is whitespace. */
  lemma SanitizeSplitAfterRun(a: string, c: char, b: string)
    requires !IsWhitespace(c)
    requires a != [] && AllWhitespace(a)
    ensures Sanitize(a + [c] + b) == Sanitize(a) + [c] + Sanitize(b)
  {
    assert a + [c] + b == a + ([c] + b);
    SanitizeRun(a, [c] + b);
    assert ([c] + b)[1..] == b;
    assert a + [] == a;
    SanitizeRun(a, []);
  }

  /** `SanitizeSplit` when the text before the split starts with a whitespace run and goes on. */
  lemma {:induction false} SanitizeSplitRunThenWord(a: string, c: char, b: string)
    requires !IsWhitespace(c)
    requires a != [] && IsWhitespace(a[0]) && !AllWhitespace(a)
    ensures Sanitize(a + [c] + b) == Sanitize(a) + [c] + Sanitize(b)
    decreases |a|, 0
  {
    var x := a[1..];
    assert (a + [c] + b)[0] == a[0];
    assert (a + [c] + b)[1..] == x + ([c] + b);
    DropWhitespaceAppend(x, [c] + b);
    var d := DropWhitespace(x);
    assert DropWhitespace(x + ([c] + b)) == d + ([c] + b);
    assert d + ([c] + b) == d + [c] + b;
    SanitizeSplit(d, c, b);
  }

  /** Two words around a whitespace run are joined by a single `-`. */
  lemma SanitizeWords(a: string, w: string, b: string)
    requires a != [] && NoWhitespace(a) && NoWhitespace(b)
    requires w != [] && AllWhitespace(w)
    ensures Sanitize(a + w + b) == a + "-" + b
  {
    var n := |a| - 1;
    assert a == a[..n] + [a[n]];
    assert a + w + b == a[..n] + [a[n]] + (w + b);
    SanitizeSplit(a[..n], a[n], w + b);
    SanitizeKeepsWord(a[..n]);
    SanitizeRun(w, b);
    SanitizeKeepsWord(b);
  }

  /**
   * A maximal whitespace run anywhere in a name becomes one `-`, and the text
   * on either side of it is sanitised independently.
   */
  lemma SanitizeRunBetween(a: string, w: string, b: string)
    requires a == [] || !IsWhitespace(a[|a| - 1])
    requires b == [] || !IsWhitespace(b[0])
    requires w != [] && AllWhitespace(w)
    ensures Sanitize(a + w + b) == Sanitize(a) + "-" + Sanitize(b)
  {
    if a == [] {
      assert a + w + b == w + b;
      SanitizeRun(w, b);
    } else {
      var n := |a| - 1;
      assert a == a[..n] + [a[n]];
      SanitizeRunAfterWord(a[..n], a[n], w, b);
    }
  }

  /** `SanitizeRunBetween` when the text before the run ends in the character `c`. */
  lemma SanitizeRunAfterWord(front: string, c: char, w: string, b: string)
    requires !IsWhitespace(c)
    requires b == [] || !IsWhitespace(b[0])
    requires w != [] && AllWhitespace(w)
    ensures Sanitize(front + [c] + w + b) == Sanitize(front + [c]) + "-" + Sanitize(b)
  {
    assert front + [c] + w + b == front + [c] + (w + b);
    SanitizeSplitLast(front, c, w + b);
    SanitizeRun(w, b);
  }

  /** Splitting right after a non-whitespace character. */
  lemma SanitizeSplitLast(front: string, c: char, rest: string)
    requires !IsWhitespace(c)
    ensures Sanitize(front + [c] + rest) == Sanitize(front + [c]) + Sanitize(rest)
  {
    assert front + [c] + [] == front + [c];
    SanitizeSplit(front, c, []);
    SanitizeSplit(front, c, rest);
  }

  /** Sanitising twice gives what sanitising once gives. */
  lemma SanitizeIdempotent(s: string)
    ensures Sanitize(Sanitize(s)) == Sanitize(s)
  {
    SanitizeRemovesWhitespace(s);
    SanitizeKeepsWord(Sanitize(s));
  }

  /** A name is left unchanged exactly when it holds no whitespace. */
  lemma SanitizeFixedPoint(s: string)
    ensures Sanitize(s) == s <==> NoWhitespace(s)
  {
  }

  /** The golden value: the name `Acme  Corp` (two spaces) becomes `Acme-Corp`. */
  lemma SanitizeExample(name: string)
    requires name == "Acme  Corp"
    ensures Sanitize(name) == "Acme-Corp"
  {
    SanitizeWords("Acme", "  ", "Corp");
    assert "Acme" + "  " + "Corp" == name;
  }

  // ---------------------------------------------------------------------
  // Decimal rendering of the disambiguator
  // ---------------------------------------------------------------------

  predicate IsDigit(c: char) {
    '0' <= c <= '9'
  }

  predicate AllDigits(s: string) {
    forall i :: 0 <= i < |s| ==> IsDigit(s[i])
  }

  function DigitChar(d: nat): (c: char)
    requires d < 10
    ensures IsDigit(c) && DigitValue(c) == d
  {
    ('0' as int + d) as char
  }

  function DigitValue(c: char): nat
    requires IsDigit(c)
  {
    c as int - '0' as int
  }

  /** The decimal numeral of `n`, as a template literal renders an integer. */
  function Decimal(n: nat): (r: string)
    ensures r != [] && AllDigits(r)
    ensures r[0] == '0' ==> n == 0
    ensures n < 10 ==> |r| == 1
  {
    if n < 10 then [DigitChar(n)] else Decimal(n / 10) + [DigitChar(n % 10)]
  }

  /** The value of a numeral. */
  function ParseDecimal(s: string): nat
    requires AllDigits(s)
  {
    if s == [] then 0 else ParseDecimal(s[..|s| - 1]) * 10 + DigitValue(s[|s| - 1])
  }

  /** Reading back a rendered number gives the number. */
  lemma {:induction false} ParseDecimalInverse(n: nat)
    ensures ParseDecimal(Decimal(n)) == n
  {
    if n >= 10 {
      var r := Decimal(n);
      assert r[..|r| - 1] == Decimal(n / 10);
      ParseDecimalInverse(n / 10);
    }
  }

  /** A disambiguator below the bound renders in at most five digits. */
  lemma {:induction false} DecimalLength(n: nat)
    requires n < RandomBound
    ensures |Decimal(n)| <= 5
  {
    if n >= 10 {
      assert |Decimal(n / 10)| <= 4 by {
        if n / 10 >= 10 {
          assert |Decimal(n / 100)| <= 3 by {
            if n / 100 >= 10 {
              assert n / 1000 < 90;
            }
          }
        }
      }
    }
  }

  /** The golden value: 12345 renders as `12345`. */
  lemma DecimalExample(n: nat)
    requires n == 12345
    ensures Decimal(n) == "12345"
  {
  }

  // ---------------------------------------------------------------------
  // Object keys
  // ---------------------------------------------------------------------

  /** What a key is made of: the disambiguator and the sanitised name. */
  datatype KeyParts = KeyParts(random: nat, name: string)

  /**
   * The object key of a logo: the fixed prefix, the decimal disambiguator,
   * a `-`, and the sanitised company name.
   */
  function ObjectKey(name: string, random: nat): (r: string)
    requires random < RandomBound
    ensures |r| >= |KeyPrefix| && r[..|KeyPrefix|] == KeyPrefix
    ensures NoWhitespace(r)
    ensures |r| <= |KeyPrefix| + 6 + |name|
  {
    DecimalLength(random);
    SanitizeRemovesWhitespace(name);
    KeyPrefix + Decimal(random) + "-" + Sanitize(name)
  }

  /** The position of the first `-` in `s`, or `|s|` when there is none. */
  function DashIndex(s: string): (r: nat)
    ensures r <= |s|
    ensures forall i :: 0 <= i < r ==> s[i] != '-'
    ensures r < |s| ==> s[r] == '-'
  {
    if s == [] || s[0] == '-' then 0 else 1 + DashIndex(s[1..])
  }

  /** Splits a key back into its disambiguator and its name part. */
  function ParseKey(key: string): Option<KeyParts> {
    if |key| < |KeyPrefix| || key[..|KeyPrefix|] != KeyPrefix then None
    else
      var rest := key[|KeyPrefix|..];
      var n := DashIndex(rest);
      if n == 0 || n == |rest| || !AllDigits(rest[..n]) then None
      else Some(KeyParts(ParseDecimal(rest[..n]), rest[n + 1..]))
  }

  /** Every key splits back into the disambiguator and the sanitised name it came from. */
  lemma ObjectKeyRoundTrip(name: string, random: nat)
    requires random < RandomBound
    ensures ParseKey(ObjectKey(name, random)) == Some(KeyParts(random, Sanitize(name)))
  {
    var d := Decimal(random);
    var key := ObjectKey(name, random);
    var rest := key[|KeyPrefix|..];
    assert rest == d + "-" + Sanitize(name);
    assert forall i :: 0 <= i < |d| ==> rest[i] == d[i];
    assert rest[|d|] == '-';
    var n := DashIndex(rest);
    assert n == |d|;
    assert rest[..n] == d;
    assert rest[n + 1..] == Sanitize(name);
    ParseDecimalInverse(random);
  }

  /**
   * Two keys are equal exactly when their disambiguators are equal and the
   * names sanitise to the same text.
   */
  lemma ObjectKeyInjective(name1: string, random1: nat, name2: string, random2: nat)
    requires random1 < RandomBound && random2 < RandomBound
    ensures ObjectKey(name1, random1) == ObjectKey(name2, random2)
        <==> random1 == random2 && Sanitize(name1) == Sanitize(name2)
  {
    ObjectKeyRoundTrip(name1, random1);
    ObjectKeyRoundTrip(name2, random2);
  }

  /** The golden value for the name `Acme  Corp` and the disambiguator 12345. */
  lemma ObjectKeyExample(name: string, random: nat)
    requires name == "Acme  Corp" && random == 12345
    ensures ObjectKey(name, random) == "logo-12345-Acme-Corp"
  {
    SanitizeExample(name);
    DecimalExample(random);
    assert KeyPrefix + "12345" + "-" + "Acme-Corp" == "logo-12345-Acme-Corp";
  }

  /**
   * Names that differ only in the length of one whitespace run collide: with
   * the same disambiguator they get the same key. The runs are maximal: the
   * text before them does not end in whitespace and the text after them does
   * not start with it; either side may be empty.
   */
  lemma ObjectKeyRunLengthCollision(a: string, w1: string, w2: string, b: string, random: nat)
    requires a == [] || !IsWhitespace(a[|a| - 1])
    requires b == [] || !IsWhitespace(b[0])
    requires w1 != [] && AllWhitespace(w1) && w2 != [] && AllWhitespace(w2)
    requires random < RandomBound
    ensures ObjectKey(a + w1 + b, random) == ObjectKey(a + w2 + b, random)
  {
    SanitizeRunBetween(a, w1, b);
    SanitizeRunBetween(a, w2, b);
  }

  // ---------------------------------------------------------------------
  // Public address of an uploaded logo
  // ---------------------------------------------------------------------

  /** Everything in a public logo address that comes before the key. */
  function UrlPrefix(baseUrl: string): string {
    baseUrl + PublicPath + Bucket + "/"
  }

  /** The address under which the store serves the object `key` of the logo bucket. */
  function PublicUrl(baseUrl: string, key: string): (r: string)
    ensures |r| >= |key| && r[|r| - |key|..] == key
    ensures |r| >= |baseUrl| && r[..|baseUrl|] == baseUrl
  {
    UrlPrefix(baseUrl) + key
  }

  /** The key an address of the logo bucket names, if it is one. */
  function KeyOfUrl(baseUrl: string, url: string): Option<string> {
    var p := UrlPrefix(baseUrl);
    if |url| >= |p| && url[..|p|] == p then Some(url[|p|..]) else None
  }

  /** The key can be read back from the public address built from it. */
  lemma PublicUrlRoundTrip(baseUrl: string, key: string)
    ensures KeyOfUrl(baseUrl, PublicUrl(baseUrl, key)) == Some(key)
  {
  }

  /** Distinct keys have distinct public addresses. */
  lemma PublicUrlInjective(baseUrl: string, key1: string, key2: string)
    ensures PublicUrl(baseUrl, key1) == PublicUrl(baseUrl, key2) <==> key1 == key2
  {
  }
}
