/** Decimal rendering of numbers, the way `strconv.Itoa` and the `%05d` verb print them. */
module Decimal {

  predicate Digits(s: string) {
    forall i | 0 <= i < |s| :: '0' <= s[i] <= '9'
  }

  function Render(n: nat): (s: string)
    ensures |s| >= 1 && Digits(s)
  {
    var last := ['0' + (n % 10) as char];
    if n < 10 then last else Render(n / 10) + last
  }

  function Zeros(k: nat): (s: string)
    ensures |s| == k && Digits(s)
  {
    if k == 0 then "" else Zeros(k - 1) + "0"
  }

  /** Left-pads with zeros to the given width; wider numbers are left alone. */
  function Padded(n: nat, width: nat): (s: string)
    ensures |s| >= width && |s| >= 1 && Digits(s)
  {
    var s := Render(n);
    Zeros(if |s| >= width then 0 else width - |s|) + s
  }

  /** The number a digit string denotes. */
  function Value(s: string): nat
    requires Digits(s)
  {
    if s == [] then 0 else Value(s[..|s| - 1]) * 10 + (s[|s| - 1] - '0') as nat
  }

  lemma {:induction false} RenderRoundTrip(n: nat)
    ensures Value(Render(n)) == n
  {
    if n >= 10 {
      RenderRoundTrip(n / 10);
      assert Render(n)[..|Render(n)| - 1] == Render(n / 10);
    }
  }

  lemma {:induction false} LeadingZeros(k: nat, s: string)
    requires Digits(s)
    ensures Value(Zeros(k) + s) == Value(s)
    decreases |s| + k
  {
    var t := Zeros(k) + s;
    if s != [] {
      LeadingZeros(k, s[..|s| - 1]);
      assert t[..|t| - 1] == Zeros(k) + s[..|s| - 1];
    } else if k > 0 {
      LeadingZeros(k - 1, []);
      assert t[..|t| - 1] == Zeros(k - 1) + [];
    }
  }

  lemma PaddedRoundTrip(n: nat, width: nat)
    ensures Value(Padded(n, width)) == n
  {
    var s := Render(n);
    RenderRoundTrip(n);
    LeadingZeros(if |s| >= width then 0 else width - |s|, s);
  }
}
