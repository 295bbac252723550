/** Text primitives the Postgres dialect builds its output from: joining with a
    separator, double-quoting identifiers, Rust's `str::trim`, and the decimal
    rendering of an unsigned number. */
module Strings {

  predicate StartsWith(s: string, prefix: string) {
    prefix <= s
  }

  predicate EndsWith(s: string, suffix: string) {
    |suffix| <= |s| && s[|s| - |suffix|..] == suffix
  }

  /** `parts` with `sep` between neighbours, as Rust's `[String]::join`. */
  function Join(parts: seq<string>, sep: string): (r: string)
  {
    if |parts| == 0 then ""
    else if |parts| == 1 then parts[0]
    else parts[0] + sep + Join(parts[1..], sep)
  }

  /** Appending one part adds exactly one separator and that part at the end:
      joined parts keep their order. */
  lemma {:induction false} JoinSnoc(parts: seq<string>, x: string, sep: string)
    requires parts != []
    ensures Join(parts + [x], sep) == Join(parts, sep) + sep + x
  {
    if |parts| == 1 {
      assert parts + [x] == [parts[0], x];
      assert [parts[0], x][1..] == [x];
    } else {
      assert (parts + [x])[0] == parts[0];
      assert (parts + [x])[1..] == parts[1..] + [x];
      JoinSnoc(parts[1..], x, sep);
    }
  }

  /** Joining one, two, three or four parts, written out. */
  lemma Join1(a: string, sep: string)
    ensures Join([a], sep) == a
  {
  }

  lemma Join2(a: string, b: string, sep: string)
    ensures Join([a, b], sep) == a + sep + b
  {
    assert [a, b][1..] == [b];
  }

  lemma Join3(a: string, b: string, c: string, sep: string)
    ensures Join([a, b, c], sep) == a + sep + b + sep + c
  {
    assert [a, b, c][1..] == [b, c];
    Join2(b, c, sep);
  }

  lemma Join4(a: string, b: string, c: string, d: string, sep: string)
    ensures Join([a, b, c, d], sep) == a + sep + b + sep + c + sep + d
  {
    assert [a, b, c, d][1..] == [b, c, d];
    Join3(b, c, d, sep);
  }

  /** An identifier between double quotes, as every `\"{}\"` of the dialect. */
  function Quote(name: string): (r: string) {
    "\"" + name + "\""
  }

  /** Every name of `names` quoted, in the same order. */
  function QuoteAll(names: seq<string>): (r: seq<string>)
    ensures |r| == |names|
    ensures forall i :: 0 <= i < |names| ==> r[i] == Quote(names[i])
  {
    seq(|names|, i requires 0 <= i < |names| => Quote(names[i]))
  }

  /** Rust's `char::is_whitespace`: the characters with the Unicode
      White_Space property, which is what `str::trim` removes. */
  predicate IsWhitespace(c: char) {
    || ('\t' <= c <= '\r')
    || c == ' '
    || c == '\U{0085}'
    || c == '\U{00A0}'
    || c == '\U{1680}'
    || ('\U{2000}' <= c <= '\U{200A}')
    || c == '\U{2028}'
    || c == '\U{2029}'
    || c == '\U{202F}'
    || c == '\U{205F}'
    || c == '\U{3000}'
  }

  predicate AllWhitespace(s: string) {
    forall i :: 0 <= i < |s| ==> IsWhitespace(s[i])
  }

  /** `s` without its leading whitespace: a suffix of `s`, everything cut off
      is whitespace, and what is left does not start with whitespace. */
  function TrimStart(s: string): (r: string)
    ensures |r| <= |s| && r == s[|s| - |r|..]
    ensures AllWhitespace(s[..|s| - |r|])
    ensures r == [] || !IsWhitespace(r[0])
  {
    if s != [] && IsWhitespace(s[0]) then TrimStart(s[1..]) else s
  }

  /** `s` without its trailing whitespace: a prefix of `s`, everything cut off
      is whitespace, and what is left does not end with whitespace. */
  function TrimEnd(s: string): (r: string)
    ensures |r| <= |s| && r == s[..|r|]
    ensures AllWhitespace(s[|r|..])
    ensures r == [] || !IsWhitespace(r[|r| - 1])
  {
    if s != [] && IsWhitespace(s[|s| - 1]) then TrimEnd(s[..|s| - 1]) else s
  }

  /** Rust's `str::trim`: the whitespace at both ends removed, the middle kept.
      The result is empty exactly when `s` is all whitespace. */
  function Trim(s: string): (r: string)
    ensures r == [] <==> AllWhitespace(s)
    ensures r != [] ==> !IsWhitespace(r[0]) && !IsWhitespace(r[|r| - 1])
  {
    TrimEmptyIff(s);
    TrimEnd(TrimStart(s))
  }

  lemma TrimEmptyIff(s: string)
    ensures TrimEnd(TrimStart(s)) == [] <==> AllWhitespace(s)
  {
    var t := TrimStart(s);
    assert |t| > 0 ==> t[0] == s[|s| - |t|];
    if |TrimEnd(t)| == 0 {
      assert t[0..] == t;
      assert |t| == 0;
      assert s[..|s|] == s;
    }
  }

  /** A concatenation is all whitespace exactly when both sides are. */
  lemma AllWhitespaceConcat(a: string, b: string)
    ensures AllWhitespace(a + b) <==> AllWhitespace(a) && AllWhitespace(b)
  {
    if AllWhitespace(a) && AllWhitespace(b) {
      forall i | 0 <= i < |a + b| ensures IsWhitespace((a + b)[i]) {
        if i < |a| {
          assert (a + b)[i] == a[i];
        } else {
          assert (a + b)[i] == b[i - |a|];
        }
      }
    }
    if AllWhitespace(a + b) {
      forall i | 0 <= i < |a| ensures IsWhitespace(a[i]) {
        assert a[i] == (a + b)[i];
      }
      forall i | 0 <= i < |b| ensures IsWhitespace(b[i]) {
        assert b[i] == (a + b)[|a| + i];
      }
    }
  }

  /** A clause that has no whitespace at either end (or is empty). */
  predicate Clean(x: string) {
    |x| == 0 || (!IsWhitespace(x[0]) && !IsWhitespace(x[|x| - 1]))
  }

  /** How many empty strings `parts` starts with. */
  function LeadingEmpty(parts: seq<string>): (n: nat)
    ensures n <= |parts|
    ensures forall i :: 0 <= i < n ==> |parts[i]| == 0
    ensures n < |parts| ==> |parts[n]| != 0
  {
    if |parts| == 0 || |parts[0]| != 0 then 0 else 1 + LeadingEmpty(parts[1..])
  }

  /** How many empty strings `parts` ends with. */
  function TrailingEmpty(parts: seq<string>): (n: nat)
    ensures n <= |parts|
    ensures forall i :: |parts| - n <= i < |parts| ==> |parts[i]| == 0
    ensures n < |parts| ==> |parts[|parts| - n - 1]| != 0
  {
    if |parts| == 0 || |parts[|parts| - 1]| != 0 then 0 else 1 + TrailingEmpty(parts[..|parts| - 1])
  }

  /** `parts` without its leading empty strings. */
  function DropLeadingEmpty(parts: seq<string>): (r: seq<string>) {
    parts[LeadingEmpty(parts)..]
  }

  /** `parts` without its trailing empty strings. */
  function DropTrailingEmpty(parts: seq<string>): (r: seq<string>) {
    parts[..|parts| - TrailingEmpty(parts)]
  }

  /** Four-part lists with the empty parts at the given places: which parts
      dropping the leading and trailing empty ones keeps. */
  lemma KeepFirstOfFour(p: string)
    requires |p| != 0
    ensures DropTrailingEmpty(DropLeadingEmpty([p, "", "", ""])) == [p]
  {
    var x := [p, "", "", ""];
    assert LeadingEmpty(x) == 0;
    assert TrailingEmpty(x) == 3;
    assert x[0..][..1] == [p];
  }

  lemma KeepMiddleOfFour(n: string, u: string)
    requires |n| != 0 && |u| != 0
    ensures DropTrailingEmpty(DropLeadingEmpty(["", n, u, ""])) == [n, u]
  {
    var x := ["", n, u, ""];
    assert LeadingEmpty(x) == 1;
    assert x[1..] == [n, u, ""];
    assert TrailingEmpty([n, u, ""]) == 1;
    assert [n, u, ""][..2] == [n, u];
  }

  lemma KeepLastOfFour(d: string)
    requires |d| != 0
    ensures DropTrailingEmpty(DropLeadingEmpty(["", "", "", d])) == [d]
  {
    var x := ["", "", "", d];
    assert |x[3]| != 0;
    assert LeadingEmpty(x) == 3;
    assert x[3..] == [d];
    assert TrailingEmpty([d]) == 0;
  }

  lemma KeepGapOfFour(p: string, u: string)
    requires |p| != 0 && |u| != 0
    ensures DropTrailingEmpty(DropLeadingEmpty([p, "", u, ""])) == [p, "", u]
  {
    var x := [p, "", u, ""];
    assert LeadingEmpty(x) == 0;
    assert TrailingEmpty(x) == 1;
    assert x[0..][..3] == [p, "", u];
  }

  lemma {:induction false} TrimStartWhitespacePrefix(w: string, s: string)
    requires AllWhitespace(w)
    ensures TrimStart(w + s) == TrimStart(s)
  {
    if w != [] {
      assert (w + s)[1..] == w[1..] + s;
      TrimStartWhitespacePrefix(w[1..], s);
    } else {
      assert w + s == s;
    }
  }

  lemma {:induction false} TrimEndWhitespaceSuffix(s: string, w: string)
    requires AllWhitespace(w)
    ensures TrimEnd(s + w) == TrimEnd(s)
  {
    if w != [] {
      assert (s + w)[..|s + w| - 1] == s + w[..|w| - 1];
      TrimEndWhitespaceSuffix(s, w[..|w| - 1]);
    } else {
      assert s + w == s;
    }
  }

  /** Trimming the start of a space-joined list of clean clauses only drops the
      empty clauses in front (and the separators after them). */
  lemma {:induction false} TrimStartJoin(parts: seq<string>)
    requires forall i :: 0 <= i < |parts| ==> Clean(parts[i])
    ensures TrimStart(Join(parts, " ")) == Join(DropLeadingEmpty(parts), " ")
  {
    if |parts| == 0 {
    } else if |parts[0]| == 0 && |parts| == 1 {
      assert parts[1..] == [];
      assert DropLeadingEmpty(parts) == [];
    } else if |parts[0]| == 0 {
      assert Join(parts, " ") == parts[0] + " " + Join(parts[1..], " ");
      assert parts[0] + " " == " ";
      TrimStartWhitespacePrefix(" ", Join(parts[1..], " "));
      TrimStartJoin(parts[1..]);
      assert DropLeadingEmpty(parts) == DropLeadingEmpty(parts[1..]);
    } else {
      assert DropLeadingEmpty(parts) == parts;
      assert Join(parts, " ")[0] == parts[0][0];
    }
  }

  /** Trimming the end of a space-joined list of clean clauses only drops the
      empty clauses at the back (and the separators before them). */
  lemma {:induction false} TrimEndJoin(parts: seq<string>)
    requires forall i :: 0 <= i < |parts| ==> Clean(parts[i])
    ensures TrimEnd(Join(parts, " ")) == Join(DropTrailingEmpty(parts), " ")
  {
    if |parts| == 0 {
    } else if |parts| == 1 {
      if |parts[0]| == 0 {
        assert DropTrailingEmpty(parts) == [];
      } else {
        assert DropTrailingEmpty(parts) == parts;
      }
    } else {
      var init, x := parts[..|parts| - 1], parts[|parts| - 1];
      assert parts == init + [x];
      JoinSnoc(init, x, " ");
      if |x| == 0 {
        assert Join(parts, " ") == Join(init, " ") + " ";
        TrimEndWhitespaceSuffix(Join(init, " "), " ");
        TrimEndJoin(init);
        assert DropTrailingEmpty(parts) == DropTrailingEmpty(init);
      } else {
        assert DropTrailingEmpty(parts) == parts;
        var j := Join(parts, " ");
        assert j[|j| - 1] == x[|x| - 1];
      }
    }
  }

  /** Rust's `trim` of a space-joined list of clean clauses keeps exactly the
      clauses from the first non-empty one to the last non-empty one, joined
      by single spaces: an empty clause between two present ones still
      contributes its separator. */
  lemma TrimJoin(parts: seq<string>)
    requires forall i :: 0 <= i < |parts| ==> Clean(parts[i])
    ensures Trim(Join(parts, " ")) == Join(DropTrailingEmpty(DropLeadingEmpty(parts)), " ")
  {
    var j := Join(parts, " ");
    TrimStartJoin(parts);
    var lead := DropLeadingEmpty(parts);
    CleanSuffix(parts, LeadingEmpty(parts));
    TrimEndJoin(lead);
    assert Trim(j) == TrimEnd(TrimStart(j));
  }

  lemma CleanSuffix(parts: seq<string>, k: nat)
    requires k <= |parts|
    requires forall i :: 0 <= i < |parts| ==> Clean(parts[i])
    ensures forall i :: 0 <= i < |parts[k..]| ==> Clean(parts[k..][i])
  {
    forall i | 0 <= i < |parts[k..]| ensures Clean(parts[k..][i]) {
      assert parts[k..][i] == parts[k + i];
    }
  }

  function DigitChar(d: nat): (c: char)
    requires d < 10
    ensures '0' <= c <= '9'
  {
    ('0' as int + d) as char
  }

  predicate IsDigits(s: string) {
    forall i :: 0 <= i < |s| ==> '0' <= s[i] <= '9'
  }

  /** The decimal rendering of `n` (Rust's `Display` for an unsigned integer):
      at least one digit, only digits, and no leading zero unless `n` is 0. */
  function Decimal(n: nat): (r: string)
    ensures |r| >= 1 && IsDigits(r)
    ensures r[0] == '0' ==> n == 0 && |r| == 1
    decreases n
  {
    if n < 10 then [DigitChar(n)] else Decimal(n / 10) + [DigitChar(n % 10)]
  }

  /** The number a string of decimal digits denotes. */
  function DecimalValue(s: string): nat
    requires IsDigits(s)
  {
    if s == [] then 0 else DecimalValue(s[..|s| - 1]) * 10 + (s[|s| - 1] as int - '0' as int)
  }

  /** Reading back the decimal rendering gives the number rendered. */
  lemma {:induction false} DecimalRoundTrip(n: nat)
    ensures DecimalValue(Decimal(n)) == n
    decreases n
  {
    if n >= 10 {
      var r := Decimal(n);
      assert r[..|r| - 1] == Decimal(n / 10);
      DecimalRoundTrip(n / 10);
    }
  }

  /** Distinct numbers have distinct decimal renderings. */
  lemma DecimalInjective(m: nat, n: nat)
    requires Decimal(m) == Decimal(n)
    ensures m == n
  {
    DecimalRoundTrip(m);
    DecimalRoundTrip(n);
  }
}
