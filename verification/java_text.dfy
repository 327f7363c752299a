/** The handful of java.lang.String and java.lang.Integer operations the
    controller relies on, with their JDK semantics written out:
    `s.split(",")`, `s.replace("%", "")` and `Integer.valueOf(s)`. Also
    `Integer.toString(n)`, which the controller never calls: it stands for
    whoever prints a progress number into a state string. */
module JavaText {
  import opened Optional

  /* ---------------------------------------------------------------------
     Fields: the comma-separated pieces of a string
     --------------------------------------------------------------------- */

  /** Position of the first `c` in `s`, or `|s|` when `s` has none. */
  function IndexOf(s: string, c: char): (i: nat)
    ensures i <= |s|
    ensures forall k :: 0 <= k < i ==> s[k] != c
    ensures i < |s| ==> s[i] == c
    ensures c in s <==> i < |s|
  {
    if |s| == 0 then 0
    else if s[0] == c then 0
    else 1 + IndexOf(s[1..], c)
  }

  /** Every comma-separated field of `s`, empty ones included: a string with
      n commas has n + 1 fields. */
  function Fields(s: string): (fs: seq<string>)
    ensures |fs| >= 1
    ensures fs[0] == s[..IndexOf(s, ',')]
    ensures forall k :: 0 <= k < |fs| ==> ',' !in fs[k]
    ensures ',' in s <==> |fs| >= 2
    decreases |s|
  {
    var i := IndexOf(s, ',');
    if i == |s| then [s]
    else [s[..i]] + Fields(s[i + 1..])
  }

  /** The fields glued back together with single commas. */
  function Join(fs: seq<string>): string
    requires |fs| >= 1
  {
    if |fs| == 1 then fs[0] else fs[0] + "," + Join(fs[1..])
  }

  /** Joining a field in front of others puts a comma between them. */
  lemma JoinCons(a: string, fs: seq<string>)
    requires |fs| >= 1
    ensures Join([a] + fs) == a + "," + Join(fs)
  {
    assert ([a] + fs)[1..] == fs;
  }

  /** Splitting into fields loses nothing: joining the fields gives the
      string back. */
  lemma {:induction false} JoinFields(s: string)
    ensures Join(Fields(s)) == s
    decreases |s|
  {
    var i := IndexOf(s, ',');
    if i < |s| {
      var head, rest := s[..i], s[i + 1..];
      assert s == head + [','] + rest;
      FieldsOfPrefixed(head, rest);
      JoinCons(head, Fields(rest));
      JoinFields(rest);
    }
  }

  /** The first `c` of `a + [c] + b` sits right after `a` when `a` has none. */
  lemma IndexOfAfterPrefix(a: string, c: char, b: string)
    requires c !in a
    ensures IndexOf(a + [c] + b, c) == |a|
  {
    var s := a + [c] + b;
    assert s[|a|] == c;
    assert forall k :: 0 <= k < |a| ==> s[k] == a[k];
  }

  /** Fields of `a + "," + b` when `a` has no comma: `a`, then the fields of `b`. */
  lemma FieldsOfPrefixed(a: string, b: string)
    requires ',' !in a
    ensures Fields(a + [','] + b) == [a] + Fields(b)
  {
    var s := a + [','] + b;
    IndexOfAfterPrefix(a, ',', b);
    assert s[..|a|] == a;
    assert s[|a| + 1..] == b;
  }

  /** Joining comma-free fields and splitting again gives the same fields. */
  lemma {:induction false} FieldsJoin(fs: seq<string>)
    requires |fs| >= 1
    requires forall k :: 0 <= k < |fs| ==> ',' !in fs[k]
    ensures Fields(Join(fs)) == fs
    decreases |fs|
  {
    if |fs| > 1 {
      var head, tail := fs[0], Join(fs[1..]);
      var s := head + [','] + tail;
      assert Join(fs) == s;
      IndexOfAfterPrefix(head, ',', tail);
      FieldsOfPrefixed(head, tail);
      FieldsJoin(fs[1..]);
      assert fs == [head] + fs[1..];
    }
  }

  /** True of a string with no character but commas (the empty one too). */
  predicate AllCommas(s: string) {
    forall j :: 0 <= j < |s| ==> s[j] == ','
  }

  /** True of a non-empty string made of commas only. */
  predicate OnlyCommas(s: string) {
    |s| > 0 && AllCommas(s)
  }

  /** True of a list of strings that are all empty. */
  predicate AllEmpty(fs: seq<string>) {
    forall k :: 0 <= k < |fs| ==> fs[k] == ""
  }

  lemma AllEmptyCons(a: string, fs: seq<string>)
    ensures AllEmpty([a] + fs) <==> a == "" && AllEmpty(fs)
  {
    if a == "" && AllEmpty(fs) {
      forall k | 0 <= k < |[a] + fs|
        ensures ([a] + fs)[k] == ""
      {
        if k > 0 {
          assert ([a] + fs)[k] == fs[k - 1];
        }
      }
    }
    if AllEmpty([a] + fs) {
      assert ([a] + fs)[0] == a;
      forall k | 0 <= k < |fs|
        ensures fs[k] == ""
      {
        assert fs[k] == ([a] + fs)[k + 1];
      }
    }
  }

  lemma AllCommasCons(c: char, s: string)
    ensures AllCommas([c] + s) <==> c == ',' && AllCommas(s)
  {
    if AllCommas([c] + s) {
      assert ([c] + s)[0] == c;
      forall j | 0 <= j < |s|
        ensures s[j] == ','
      {
        assert s[j] == ([c] + s)[j + 1];
      }
    }
  }

  /** Every field is empty exactly when the string has nothing but commas. */
  lemma {:induction false} FieldsAllEmpty(s: string)
    ensures AllEmpty(Fields(s)) <==> AllCommas(s)
    decreases |s|
  {
    var i := IndexOf(s, ',');
    var fs := Fields(s);
    if i == |s| {
      assert fs == [s];
      if |s| > 0 {
        assert s[0] != ',';
      }
    } else {
      var rest := s[i + 1..];
      FieldsAllEmpty(rest);
      assert fs == [s[..i]] + Fields(rest);
      AllEmptyCons(s[..i], Fields(rest));
      if i == 0 {
        assert s == [','] + rest;
        AllCommasCons(',', rest);
      } else {
        assert s[0] != ',';
        assert s[..i] != "";
      }
    }
  }

  /* ---------------------------------------------------------------------
     String.split(",")
     --------------------------------------------------------------------- */

  /** The fields with every trailing empty one removed, as `split` does when
      it is given no limit. */
  function DropTrailingEmpty(fs: seq<string>): (r: seq<string>)
    ensures r <= fs
    ensures |r| > 0 ==> r[|r| - 1] != ""
    ensures forall k :: |r| <= k < |fs| ==> fs[k] == ""
  {
    if |fs| == 0 then []
    else if fs[|fs| - 1] == "" then DropTrailingEmpty(fs[..|fs| - 1])
    else fs
  }

  /** `s.split(",")`: a string with no comma comes back whole (the empty
      string included); otherwise its fields with the trailing empty ones
      dropped, so that a string of commas only gives no fields at all. */
  function Split(s: string): (parts: seq<string>)
    ensures ',' !in s ==> parts == [s]
    ensures ',' in s && |parts| > 0 ==> parts[|parts| - 1] != ""
    ensures parts <= Fields(s)
    ensures forall k :: |parts| <= k < |Fields(s)| ==> Fields(s)[k] == ""
  {
    if ',' !in s then [s] else DropTrailingEmpty(Fields(s))
  }

  /** `s.split(",")[0]` exists exactly when `s` is not made of commas only,
      and it is then the text before the first comma. */
  lemma SplitHead(s: string)
    ensures |Split(s)| > 0 <==> !OnlyCommas(s)
    ensures |Split(s)| > 0 ==> Split(s)[0] == s[..IndexOf(s, ',')]
  {
    if ',' in s {
      var fs, parts := Fields(s), Split(s);
      FieldsAllEmpty(s);
      if |parts| == 0 {
        assert AllEmpty(fs);
      } else {
        var last := |parts| - 1;
        assert parts[last] == fs[last] && fs[last] != "";
        assert !AllEmpty(fs);
        assert parts[0] == fs[0];
      }
    } else if |s| > 0 {
      assert s[0] in s;
    }
  }

  /** `s.split(",")[1]` is the second field whenever that field is not
      empty; when it is empty, element 1 is missing or empty. */
  lemma SplitSecond(s: string)
    requires ',' in s
    ensures Fields(s)[1] != "" ==> |Split(s)| >= 2 && Split(s)[1] == Fields(s)[1]
    ensures Fields(s)[1] == "" ==> |Split(s)| < 2 || Split(s)[1] == ""
  {
  }

  /* ---------------------------------------------------------------------
     String.replace("%", "")
     --------------------------------------------------------------------- */

  /** `s` with every occurrence of `c` taken out. */
  function RemoveAll(s: string, c: char): (r: string)
    ensures c !in r
    ensures |r| <= |s|
    ensures c !in s ==> r == s
  {
    if |s| == 0 then ""
    else (if s[0] == c then "" else [s[0]]) + RemoveAll(s[1..], c)
  }

  /** Removal keeps every other character, each as often as it occurred. */
  lemma {:induction false} RemoveAllMultiset(s: string, c: char)
    ensures multiset(RemoveAll(s, c)) == multiset(s)[c := 0]
    decreases |s|
  {
    if |s| > 0 {
      var kept := if s[0] == c then "" else [s[0]];
      assert s == [s[0]] + s[1..];
      assert multiset(kept) == multiset([s[0]])[c := 0];
      RemoveAllMultiset(s[1..], c);
      assert RemoveAll(s, c) == kept + RemoveAll(s[1..], c);
    }
  }

  /** Removal works piecewise over a concatenation. */
  lemma {:induction false} RemoveAllAppend(a: string, b: string, c: char)
    ensures RemoveAll(a + b, c) == RemoveAll(a, c) + RemoveAll(b, c)
    decreases |a|
  {
    if |a| == 0 {
      assert a + b == b;
    } else {
      var kept := if a[0] == c then "" else [a[0]];
      calc {
        RemoveAll(a + b, c);
        == { assert (a + b)[0] == a[0]; assert (a + b)[1..] == a[1..] + b; }
        kept + RemoveAll(a[1..] + b, c);
        == { RemoveAllAppend(a[1..], b, c); }
        kept + (RemoveAll(a[1..], c) + RemoveAll(b, c));
        (kept + RemoveAll(a[1..], c)) + RemoveAll(b, c);
      }
    }
  }

  /* ---------------------------------------------------------------------
     Integer.valueOf(String) and Integer.toString(int)
     --------------------------------------------------------------------- */

  /** The range of a Java `int`. */
  const IntMin: int := -0x8000_0000
  const IntMax: int := 0x7fff_ffff

  predicate InIntRange(n: int) {
    IntMin <= n <= IntMax
  }

  predicate IsDigit(c: char) {
    '0' <= c <= '9'
  }

  predicate AllDigits(s: string) {
    forall i :: 0 <= i < |s| ==> IsDigit(s[i])
  }

  function DigitValue(c: char): nat
    requires IsDigit(c)
  {
    c as int - '0' as int
  }

  function DigitChar(d: nat): (c: char)
    requires d < 10
    ensures IsDigit(c) && DigitValue(c) == d
  {
    ('0' as int + d) as char
  }

  /** The number a string of decimal digits denotes (most significant first). */
  function DigitsValue(ds: string): nat
    requires AllDigits(ds)
  {
    if |ds| == 0 then 0
    else 10 * DigitsValue(ds[..|ds| - 1]) + DigitValue(ds[|ds| - 1])
  }

  /** `Integer.valueOf(s)` in radix 10: an optional `+` or `-`, then at least
      one digit, and a value that fits in an `int`; anything else is a
      NumberFormatException, here `None`. */
  function ParseInt(s: string): (r: Option<int>)
    ensures r.Some? ==> InIntRange(r.value)
    ensures r.Some? ==> |s| > 0 && (s[0] == '+' || s[0] == '-' || IsDigit(s[0]))
    ensures r.Some? ==> |s| > 0 && IsDigit(s[|s| - 1])
    ensures r.Some? ==> forall i :: 0 < i < |s| ==> IsDigit(s[i])
  {
    if |s| == 0 then None
    else
      var signed := s[0] == '-' || s[0] == '+';
      var digits := if signed then s[1..] else s;
      if |digits| == 0 || !AllDigits(digits) then None
      else
        var magnitude: int := DigitsValue(digits);
        var v: int := if s[0] == '-' then -magnitude else magnitude;
        if InIntRange(v) then Some(v) else None
  }

  /** An unsigned string of digits is accepted exactly when its value fits
      in an `int`, and then denotes that value. */
  lemma ParseIntDigits(ds: string)
    requires |ds| > 0 && AllDigits(ds)
    ensures ParseInt(ds) == if DigitsValue(ds) <= IntMax then Some(DigitsValue(ds) as int) else None
  {
    assert IsDigit(ds[0]);
  }

  /** A leading `-` negates, and admits one more magnitude than the
      positive range: `-2147483648` parses although `2147483648` does not. */
  lemma ParseIntMinus(ds: string)
    requires |ds| > 0 && AllDigits(ds)
    ensures ParseInt("-" + ds) == if DigitsValue(ds) <= -IntMin then Some(-(DigitsValue(ds) as int)) else None
  {
    var s := "-" + ds;
    assert s[0] == '-' && s[1..] == ds;
  }

  /** A leading `+` changes nothing, unless another sign follows it. */
  lemma ParseIntPlus(ds: string)
    requires |ds| == 0 || (ds[0] != '+' && ds[0] != '-')
    ensures ParseInt("+" + ds) == ParseInt(ds)
  {
    var s := "+" + ds;
    assert s[0] == '+' && s[1..] == ds;
  }

  /** Leading zeros do not change the value of a digit string. */
  lemma {:induction false} DigitsValueLeadingZero(ds: string)
    requires AllDigits(ds)
    ensures AllDigits("0" + ds) && DigitsValue("0" + ds) == DigitsValue(ds)
    decreases |ds|
  {
    var zs := "0" + ds;
    assert AllDigits(zs) by {
      forall i | 0 <= i < |zs| ensures IsDigit(zs[i]) {
        if i > 0 { assert zs[i] == ds[i - 1]; }
      }
    }
    if |ds| > 0 {
      var init := ds[..|ds| - 1];
      DigitsValueLeadingZero(init);
      assert zs[..|zs| - 1] == "0" + init;
      assert zs[|zs| - 1] == ds[|ds| - 1];
    }
  }

  /** The decimal digits of `n` with no leading zero. */
  function NatDigits(n: nat): (ds: string)
    ensures |ds| >= 1 && AllDigits(ds)
    ensures DigitsValue(ds) == n
    ensures ds[0] == '0' ==> n == 0
  {
    if n < 10 then [DigitChar(n)]
    else
      var ds := NatDigits(n / 10) + [DigitChar(n % 10)];
      assert ds[..|ds| - 1] == NatDigits(n / 10);
      ds
  }

  /** `Integer.toString(n)`: a minus sign for negative numbers, then the
      digits of the magnitude. */
  function IntToString(n: int): (s: string)
    ensures |s| >= 1
    ensures ',' !in s && '%' !in s
  {
    if n < 0 then "-" + NatDigits(-n) else NatDigits(n)
  }

  /** Reading back what `Integer.toString` wrote gives the same `int`. */
  lemma ParseIntToString(n: int)
    requires InIntRange(n)
    ensures ParseInt(IntToString(n)) == Some(n)
  {
  }
}
