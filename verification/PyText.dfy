/** The few properties of Python strings that the models rely on. */
module PyText {

  /** The characters that `str.strip` and `str.split` treat as white space. */
  predicate IsSpace(c: char) {
    || '\t' <= c <= '\r' || '\U{1c}' <= c <= ' ' || c == '\U{85}' || c == '\U{a0}' || c == '\U{1680}'
    || '\U{2000}' <= c <= '\U{200a}' || c == '\U{2028}' || c == '\U{2029}' || c == '\U{202f}'
    || c == '\U{205f}' || c == '\U{3000}'
  }

  predicate Blank(s: string) {
    forall i :: 0 <= i < |s| ==> IsSpace(s[i])
  }

  function RStrip(s: string): string {
    if s != "" && IsSpace(s[|s| - 1]) then RStrip(s[..|s| - 1]) else s
  }

  lemma {:induction false} RStripIsPrefix(s: string)
    ensures RStrip(s) <= s
  {
    if s != "" && IsSpace(s[|s| - 1]) {
      RStripIsPrefix(s[..|s| - 1]);
    }
  }

  /** Stripping takes off exactly the white space at the end. */
  lemma {:induction false} RStripReads(s: string)
    ensures RStrip(s) <= s && Blank(s[|RStrip(s)|..])
    ensures RStrip(s) != "" ==> !IsSpace(RStrip(s)[|RStrip(s)| - 1])
  {
    if s != "" && IsSpace(s[|s| - 1]) {
      RStripReads(s[..|s| - 1]);
      var n := |RStrip(s)|;
      forall i | 0 <= i < |s[n..]|
        ensures IsSpace(s[n..][i])
      {
        assert n + i < |s| - 1 ==> s[n..][i] == s[..|s| - 1][n..][i];
      }
    }
  }

  /** Stripping keeps the order of prefixes. */
  lemma {:induction false} RStripMonotone(s: string, a: nat, b: nat)
    requires a <= b <= |s|
    ensures RStrip(s[..a]) <= RStrip(s[..b])
  {
    if a < b && IsSpace(s[b - 1]) {
      assert s[..b][..b - 1] == s[..b - 1];
      RStripMonotone(s, a, b - 1);
    } else {
      RStripIsPrefix(s[..a]);
    }
  }

  /** The words that `str.split` finds. */
  function Words(s: string): seq<string> {
    if s == "" then []
    else if IsSpace(s[0]) then Words(s[1..])
    else
      var n := WordLength(s);
      [s[..n]] + Words(s[n..])
  }

  function WordLength(s: string): (n: nat)
    ensures n <= |s| && (s != "" && !IsSpace(s[0]) ==> n > 0)
  {
    if s == "" || IsSpace(s[0]) then 0 else 1 + WordLength(s[1..])
  }

  /** The characters of a text that are no white space. */
  function Solid(s: string): string {
    if s == "" then "" else (if IsSpace(s[0]) then "" else [s[0]]) + Solid(s[1..])
  }

  lemma {:induction false} WordReads(s: string)
    ensures var n := WordLength(s);
            && (forall i :: 0 <= i < n ==> !IsSpace(s[i])) && (n == |s| || IsSpace(s[n]))
            && Solid(s) == s[..n] + Solid(s[n..])
  {
    hide IsSpace;
    if s != "" && !IsSpace(s[0]) {
      WordReads(s[1..]);
      var n := WordLength(s);
      assert s[..n] == [s[0]] + s[1..][..n - 1] && s[1..][n - 1..] == s[n..];
    }
  }

  /** The words are not empty and free of white space, and together they are the text without its white space. */
  lemma {:induction false} WordsRead(s: string)
    ensures forall i :: 0 <= i < |Words(s)| ==> Words(s)[i] != "" && Solid(Words(s)[i]) == Words(s)[i]
    ensures Join("", Words(s)) == Solid(s)
    decreases |s|
  {
    hide IsSpace;
    if s != "" {
      if IsSpace(s[0]) {
        WordsRead(s[1..]);
      } else {
        var n := WordLength(s);
        WordReads(s);
        WordsRead(s[n..]);
        SolidWord(s[..n]);
        JoinFront("", s[..n], Words(s[n..]));
      }
    }
  }

  lemma {:induction false} SolidWord(s: string)
    requires forall i :: 0 <= i < |s| ==> !IsSpace(s[i])
    ensures Solid(s) == s
  {
    if s != "" {
      SolidWord(s[1..]);
    }
  }

  lemma {:induction false} JoinFront(separator: string, first: string, rest: seq<string>)
    ensures Join(separator, [first] + rest) == first + if rest == [] then "" else separator + Join(separator, rest)
  {
    assert ([first] + rest)[1..] == rest;
  }

  function Join(separator: string, parts: seq<string>): string {
    if parts == [] then ""
    else if |parts| == 1 then parts[0]
    else parts[0] + separator + Join(separator, parts[1..])
  }

  function Decimal(n: nat): string {
    if n < 10 then [('0' as int + n) as char] else Decimal(n / 10) + Decimal(n % 10)
  }

  /** The number that a row of decimal digits stands for. */
  function Value(s: string): int {
    if s == "" then 0 else 10 * Value(s[..|s| - 1]) + (s[|s| - 1] as int - '0' as int)
  }

  /** A number is written in decimal digits, without a leading zero. */
  lemma {:induction false} DecimalReads(n: nat)
    ensures Decimal(n) != "" && Value(Decimal(n)) == n && (n > 0 ==> Decimal(n)[0] != '0')
    ensures forall i :: 0 <= i < |Decimal(n)| ==> '0' <= Decimal(n)[i] <= '9'
  {
    if n >= 10 {
      DecimalReads(n / 10);
      DecimalReads(n % 10);
      var s := Decimal(n);
      assert Decimal(n % 10) == [('0' as int + n % 10) as char];
      assert s[..|s| - 1] == Decimal(n / 10);
    }
  }

  /** The length of a character in UTF-8. */
  function CharBytes(c: char): nat {
    if c < '\U{80}' then 1 else if c < '\U{800}' then 2 else if c < '\U{10000}' then 3 else 4
  }

  function Utf8Length(s: string): nat {
    if s == "" then 0 else Utf8Length(s[..|s| - 1]) + CharBytes(s[|s| - 1])
  }

  /** One character takes one to four bytes, by its code point (section 3 of RFC 3629). */
  lemma {:induction false} Utf8OfOne(c: char)
    ensures Utf8Length([c]) == if c as int <= 0x7F then 1 else if c as int <= 0x7FF then 2
                               else if c as int <= 0xFFFF then 3 else 4
  {
    assert [c][..0] == [];
  }

  lemma {:induction false} Utf8Monotone(s: string, t: string)
    requires s <= t
    ensures Utf8Length(s) <= Utf8Length(t)
  {
    if |s| < |t| {
      Utf8Monotone(s, t[..|t| - 1]);
    } else {
      assert s == t;
    }
  }

  lemma {:induction false} Utf8Concat(s: string, t: string)
    ensures Utf8Length(s + t) == Utf8Length(s) + Utf8Length(t)
  {
    if t == "" {
      assert s + t == s;
    } else {
      assert (s + t)[..|s + t| - 1] == s + t[..|t| - 1];
      Utf8Concat(s, t[..|t| - 1]);
    }
  }
}
