/** Text helpers shared by the dashboard and the argument and configuration
    readers: blank padding, std::wstring::resize, the monitor's trimLeading,
    decimal formatting of counters and the order std::wstring keys sort in. */
module Strings {

  /** The two characters trimLeading skips: space and tab. */
  predicate IsBlank(c: char) {
    c == ' ' || c == '\t'
  }

  /** std::wstring(n, L' '). */
  function Blanks(n: nat): (r: string)
    ensures |r| == n
    ensures forall i :: 0 <= i < n ==> r[i] == ' '
  {
    seq(n, _ => ' ')
  }

  /** `if ((int)s.size() > w) s.resize(w)`: keep at most the first w characters. */
  function Truncate(s: string, w: nat): (r: string)
    ensures |r| == if |s| <= w then |s| else w
    ensures r == s[..|r|]
  {
    if |s| <= w then s else s[..w]
  }

  /** std::basic_string::rfind(p, 0) == 0: s begins with p. */
  predicate StartsWith(s: string, p: string) {
    |p| <= |s| && s[..|p|] == p
  }

  /** The monitor's trimLeading: find_first_not_of(" \t") and the suffix from
      there, or the empty string when every character is blank. */
  function TrimLeading(s: string): (r: string)
    ensures |r| <= |s|
    decreases |s|
  {
    if s != [] && IsBlank(s[0]) then TrimLeading(s[1..]) else s
  }

  /** trimLeading returns a suffix of its input that does not start with a
      blank, after a prefix of blanks only; it is empty exactly when the
      input is all blanks. */
  lemma {:induction false} TrimLeadingSpec(s: string)
    ensures TrimLeading(s) == s[|s| - |TrimLeading(s)|..]
    ensures TrimLeading(s) == [] || !IsBlank(TrimLeading(s)[0])
    ensures forall i :: 0 <= i < |s| - |TrimLeading(s)| ==> IsBlank(s[i])
    ensures TrimLeading(s) == [] <==> forall i :: 0 <= i < |s| ==> IsBlank(s[i])
    decreases |s|
  {
    if s != [] && IsBlank(s[0]) {
      TrimLeadingSpec(s[1..]);
      var r := TrimLeading(s);
      assert s[1..][|s| - 1 - |r|..] == s[|s| - |r|..];
      forall i | 0 <= i < |s| - |r|
        ensures IsBlank(s[i])
      {
        if i > 0 {
          assert s[i] == s[1..][i - 1];
        }
      }
      if r != [] {
        assert !IsBlank(r[0]);
        assert s[|s| - |r|] == r[0];
      }
    } else if s != [] {
      assert !IsBlank(s[0]);
    }
  }

  /** A single leading blank followed by a non-blank is exactly what is cut. */
  lemma TrimLeadingOneBlank(s: string)
    requires |s| >= 2 && IsBlank(s[0]) && !IsBlank(s[1])
    ensures TrimLeading(s) == s[1..]
  {
  }

  function DigitChar(d: nat): (c: char)
    requires d < 10
    ensures '0' <= c <= '9'
  {
    "0123456789"[d]
  }

  /** Decimal rendering of a counter, as `operator<<` writes an int. */
  function NatToString(n: nat): (r: string)
    ensures |r| >= 1
    ensures forall i :: 0 <= i < |r| ==> '0' <= r[i] <= '9'
    decreases n
  {
    if n < 10 then [DigitChar(n)] else NatToString(n / 10) + [DigitChar(n % 10)]
  }

  /** Strict lexicographic order of std::wstring::compare, character by
      character on the characters' values, a proper prefix first. This is the
      key order in which a std::map<std::wstring, _> is traversed. */
  predicate Below(a: string, b: string)
    decreases |a|
  {
    b != [] && (a == [] || a[0] < b[0] || (a[0] == b[0] && Below(a[1..], b[1..])))
  }

  lemma {:induction false} BelowIrreflexive(a: string)
    ensures !Below(a, a)
    decreases |a|
  {
    if a != [] {
      BelowIrreflexive(a[1..]);
    }
  }

  lemma {:induction false} BelowTransitive(a: string, b: string, c: string)
    requires Below(a, b) && Below(b, c)
    ensures Below(a, c)
    decreases |a|
  {
    if a != [] && a[0] == b[0] && b[0] == c[0] {
      BelowTransitive(a[1..], b[1..], c[1..]);
    }
  }

  lemma {:induction false} BelowTotal(a: string, b: string)
    requires a != b
    ensures Below(a, b) || Below(b, a)
    decreases |a|
  {
    if a != [] && b != [] && a[0] == b[0] {
      assert a == [a[0]] + a[1..] && b == [b[0]] + b[1..];
      BelowTotal(a[1..], b[1..]);
    }
  }

  /** k comes before every other element of s. */
  predicate IsLeast(k: string, s: set<string>) {
    k in s && forall y :: y in s && y != k ==> Below(k, y)
  }

  /** Every non-empty finite set of strings has a least element. */
  lemma {:induction false} LeastExists(s: set<string>)
    requires s != {}
    ensures exists k :: IsLeast(k, s)
    decreases |s|
  {
    var x :| x in s;
    if s == {x} {
      assert IsLeast(x, s);
    } else {
      var rest := s - {x};
      LeastExists(rest);
      var k :| IsLeast(k, rest);
      if Below(x, k) {
        forall y | y in s && y != x
          ensures Below(x, y)
        {
          if y != k {
            BelowTransitive(x, k, y);
          }
        }
        assert IsLeast(x, s);
      } else {
        BelowTotal(x, k);
        assert IsLeast(k, s);
      }
    }
  }

  /** Every element comes strictly before every later one. */
  predicate StrictlySorted(s: seq<string>) {
    forall i, j :: 0 <= i < j < |s| ==> Below(s[i], s[j])
  }
}
