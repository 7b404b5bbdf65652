/** The sort key of an uploaded file: the first maximal run of decimal
    digits in its name, read as a natural number. A name without any digit
    gets the key `None`, which ranks above every number (the source uses
    positive infinity for it). Only the ASCII digits '0'..'9' are digits here. */
module SortKey {

  datatype Option<+T> = None | Some(value: T)

  predicate IsDigit(c: char) {
    '0' <= c <= '9'
  }

  function DigitValue(c: char): (d: nat)
    requires IsDigit(c)
    ensures d < 10
  {
    (c as int) - ('0' as int)
  }

  predicate AllDigits(s: string) {
    forall k :: 0 <= k < |s| ==> IsDigit(s[k])
  }

  predicate NoDigit(s: string) {
    forall k :: 0 <= k < |s| ==> !IsDigit(s[k])
  }

  /** The number a string of decimal digits denotes, most significant digit
      first. It is 0 exactly when every digit is `0` (the empty run included). */
  function DecimalValue(s: string): (n: nat)
    requires AllDigits(s)
    ensures n == 0 <==> forall k :: 0 <= k < |s| ==> s[k] == '0'
  {
    if s == [] then 0
    else
      var prefix := s[..|s| - 1];
      assert forall k :: 0 <= k < |prefix| ==> prefix[k] == s[k];
      10 * DecimalValue(prefix) + DigitValue(s[|s| - 1])
  }

  /** `s[i..j]` is the first maximal run of digits of `s`: nothing before it is
      a digit, all of it is, and the character after it (if any) is not. */
  ghost predicate FirstMaximalRun(s: string, i: int, j: int) {
    && 0 <= i < j <= |s|
    && (forall k :: 0 <= k < i ==> !IsDigit(s[k]))
    && (forall k :: i <= k < j ==> IsDigit(s[k]))
    && (j == |s| || !IsDigit(s[j]))
  }

  /** Index of the first digit at or after `from`, or `|s|` if there is none. */
  function FirstDigit(s: string, from: nat): (i: nat)
    requires from <= |s|
    ensures from <= i <= |s|
    ensures forall k :: from <= k < i ==> !IsDigit(s[k])
    ensures i < |s| ==> IsDigit(s[i])
    decreases |s| - from
  {
    if from == |s| || IsDigit(s[from]) then from else FirstDigit(s, from + 1)
  }

  /** End of the run of digits that starts at `from`. */
  function RunEnd(s: string, from: nat): (j: nat)
    requires from <= |s|
    ensures from <= j <= |s|
    ensures forall k :: from <= k < j ==> IsDigit(s[k])
    ensures j < |s| ==> !IsDigit(s[j])
    decreases |s| - from
  {
    if from == |s| || !IsDigit(s[from]) then from else RunEnd(s, from + 1)
  }

  /** The key `extract_number` gives a file name: `None` exactly when the name
      has no digit, otherwise the value of its first maximal run of digits. */
  function ExtractNumber(name: string): (r: Option<nat>)
    ensures r.None? <==> NoDigit(name)
    ensures r.Some? ==>
      exists i, j :: FirstMaximalRun(name, i, j) && AllDigits(name[i..j]) && r.value == DecimalValue(name[i..j])
  {
    var i := FirstDigit(name, 0);
    if i == |name| then None
    else
      var j := RunEnd(name, i);
      assert FirstMaximalRun(name, i, j);
      Some(DecimalValue(name[i..j]))
  }

  /** A name has at most one first maximal run of digits, so the ensures of
      `ExtractNumber` pins its value down. */
  lemma FirstMaximalRunUnique(s: string, i: int, j: int, i': int, j': int)
    requires FirstMaximalRun(s, i, j) && FirstMaximalRun(s, i', j')
    ensures i == i' && j == j'
  {
    assert IsDigit(s[i]) && IsDigit(s[i']);
    assert j < |s| ==> !IsDigit(s[j]);
    assert j' < |s| ==> !IsDigit(s[j']);
  }

  /** Leading zeros do not change the value that `int()` reads. */
  lemma {:induction false} LeadingZeroIgnored(s: string)
    requires AllDigits(s)
    ensures AllDigits("0" + s) && DecimalValue("0" + s) == DecimalValue(s)
  {
    var t := "0" + s;
    assert AllDigits(t) by {
      forall k | 0 <= k < |t| ensures IsDigit(t[k]) {
        if k > 0 { assert t[k] == s[k - 1]; }
      }
    }
    if s != [] {
      var p := s[..|s| - 1];
      assert t[..|t| - 1] == "0" + p;
      assert t[|t| - 1] == s[|s| - 1];
      LeadingZeroIgnored(p);
    }
  }

  /** A name made of a digit-free prefix, a run of digits and a rest that
      does not start with a digit gets the value of that run as its key. */
  lemma KeyOfFirstRun(p: string, s: string, q: string)
    requires NoDigit(p) && s != [] && AllDigits(s) && (q == [] || !IsDigit(q[0]))
    ensures ExtractNumber(p + s + q) == Some(DecimalValue(s))
  {
    var name, i := p + s + q, |p|;
    assert name[i..i + |s|] == s;
    assert FirstMaximalRun(name, i, i + |s|) by {
      assert forall k :: 0 <= k < i ==> name[k] == p[k];
      assert forall k :: i <= k < i + |s| ==> name[k] == s[k - i];
      assert i + |s| < |name| ==> name[i + |s|] == q[0];
    }
    assert IsDigit(name[i]);
    var i', j' :| FirstMaximalRun(name, i', j') && AllDigits(name[i'..j'])
                  && ExtractNumber(name).value == DecimalValue(name[i'..j']);
    FirstMaximalRunUnique(name, i', j', i, i + |s|);
  }

  /** Inserting a `0` just before the first run of digits of a name leaves
      its key unchanged: `img007.jpg`, `img07.jpg` and `img7.jpg` sort together. */
  lemma LeadingZeroInName(p: string, s: string, q: string)
    requires NoDigit(p) && s != [] && AllDigits(s) && (q == [] || !IsDigit(q[0]))
    ensures ExtractNumber(p + "0" + s + q) == ExtractNumber(p + s + q)
  {
    LeadingZeroIgnored(s);
    assert p + "0" + s + q == p + ("0" + s) + q;
    KeyOfFirstRun(p, "0" + s, q);
    KeyOfFirstRun(p, s, q);
  }

  /** The ordering Python's `<` gives the keys: numbers by value, and the
      no-digit key above every number and equal to itself. */
  predicate KeyLe(a: Option<nat>, b: Option<nat>): (r: bool)
    ensures a == b ==> r
    ensures a.Some? && b.Some? ==> (r <==> a.value <= b.value)
    ensures a.Some? && b.None? ==> r
    ensures a.None? && b.Some? ==> !r
  {
    b.None? || (a.Some? && a.value <= b.value)
  }

  lemma NoKeyRanksHighest(a: Option<nat>)
    ensures KeyLe(a, None)
    ensures KeyLe(None, a) <==> a.None?
  {
  }

  /** `KeyLe` is a total order on keys, so sorting by it is well defined. */
  lemma KeyLeTotalOrder(a: Option<nat>, b: Option<nat>, c: Option<nat>)
    ensures KeyLe(a, a)
    ensures KeyLe(a, b) || KeyLe(b, a)
    ensures KeyLe(a, b) && KeyLe(b, a) ==> a == b
    ensures KeyLe(a, b) && KeyLe(b, c) ==> KeyLe(a, c)
  {
  }

  lemma ExtractNumberExamples()
    ensures ExtractNumber("img10.jpg") == Some(10)
    ensures ExtractNumber("img3_v2.jpg") == Some(3)
    ensures ExtractNumber("cover.jpg") == None
  {
    KeyOfImg10();
    KeyOfImg3();
    KeyOfCover();
  }

  lemma KeyOfCover()
    ensures ExtractNumber("cover.jpg") == None
  {
  }

  lemma KeyOfImg10()
    ensures ExtractNumber("img10.jpg") == Some(10)
  {
    assert "img10.jpg"[3..5] == "10";
    assert DecimalValue("10") == 10 by {
      assert "10"[..1] == "1";
      assert "1"[..0] == "";
    }
  }

  lemma KeyOfImg3()
    ensures ExtractNumber("img3_v2.jpg") == Some(3)
  {
    assert "img3_v2.jpg"[3..4] == "3";
    assert DecimalValue("3") == 3 by { assert "3"[..0] == ""; }
  }
}
