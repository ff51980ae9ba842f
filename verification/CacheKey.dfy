/** The string a cache key is the hash of: canonical text, knobs rendered to four decimals, and the
    separators that keep the fields apart. */
module CacheKey {
  import Decimal

  // Joining and splitting.

  function Join(parts: seq<string>, sep: char): string {
    if parts == [] then ""
    else if |parts| == 1 then parts[0]
    else parts[0] + [sep] + Join(parts[1..], sep)
  }

  predicate Free(s: string, c: char) { c !in s }

  /** What stands before the first separator is determined. */
  lemma FirstSeparator(a: string, b: string, x: string, y: string, sep: char)
    requires Free(a, sep) && Free(b, sep) && a + [sep] + x == b + [sep] + y
    ensures a == b && x == y
  {
    var s := a + [sep] + x;
    assert s[|a|] == sep && (b + [sep] + y)[|b|] == sep;
    assert |a| == |b|;
    assert s[..|a|] == a && s[..|b|] == b;
    assert s[|a| + 1..] == x && s[|b| + 1..] == y;
  }

  /** Joining loses nothing when only the last part may hold the separator. */
  lemma {:induction false} JoinInjective(p: seq<string>, q: seq<string>, sep: char)
    requires |p| == |q| > 0 && Join(p, sep) == Join(q, sep)
    requires forall i | 0 <= i < |p| - 1 :: Free(p[i], sep) && Free(q[i], sep)
    ensures p == q
  {
    if |p| > 1 {
      FirstSeparator(p[0], q[0], Join(p[1..], sep), Join(q[1..], sep), sep);
      JoinInjective(p[1..], q[1..], sep);
      assert p == [p[0]] + p[1..] && q == [q[0]] + q[1..];
    }
  }

  lemma {:induction false} JoinFree(parts: seq<string>, sep: char, c: char)
    requires c != sep && forall i | 0 <= i < |parts| :: Free(parts[i], c)
    ensures Free(Join(parts, sep), c)
  {
    if |parts| > 1 {
      JoinFree(parts[1..], sep, c);
    }
  }

  /** Where the first separator is, or the end. */
  function Upto(s: string, sep: char): (k: nat)
    ensures k <= |s| && Free(s[..k], sep) && (k < |s| ==> s[k] == sep)
  {
    if s == "" || s[0] == sep then 0
    else
      var k := 1 + Upto(s[1..], sep);
      assert s[..k] == [s[0]] + s[1..][..k - 1];
      k
  }

  /** The pieces between separators. */
  function Cut(s: string, sep: char): (r: seq<string>)
    ensures |r| > 0
    decreases |s|
  {
    var k := Upto(s, sep);
    if k == |s| then [s] else [s[..k]] + Cut(s[k + 1..], sep)
  }

  /** Cutting loses nothing. */
  lemma {:induction false} JoinCut(s: string, sep: char)
    ensures Join(Cut(s, sep), sep) == s
    decreases |s|
  {
    var k := Upto(s, sep);
    if k < |s| {
      JoinCut(s[k + 1..], sep);
      assert Cut(s, sep)[1..] == Cut(s[k + 1..], sep);
      assert s == s[..k] + [sep] + s[k + 1..];
    }
  }

  lemma CutFirst(a: string, b: string, sep: char)
    requires Free(a, sep)
    ensures Cut(a + [sep] + b, sep) == [a] + Cut(b, sep)
  {
    var s := a + [sep] + b;
    var k := Upto(s, sep);
    assert s[|a|] == sep && s[..|s|] == s;
    assert k < |s|;
    assert s == s[..k] + [sep] + s[k + 1..];
    FirstSeparator(s[..k], a, s[k + 1..], b, sep);
  }

  lemma CutHere(a: string, b: string, sep: char, k: nat)
    requires k < |a| && a[k] == sep
    ensures a + [sep] + b == a[..k] + [sep] + (a[k + 1..] + [sep] + b)
  {
    var rest := a[k + 1..];
    assert a == a[..k] + [sep] + rest;
    assert a[..k] + [sep] + rest + [sep] + b == a[..k] + [sep] + (rest + [sep] + b);
  }

  /** A separator anywhere cuts the string in two. */
  lemma {:induction false} CutSplit(a: string, b: string, sep: char)
    ensures Cut(a + [sep] + b, sep) == Cut(a, sep) + Cut(b, sep)
    decreases |a|
  {
    var k := Upto(a, sep);
    if k == |a| {
      assert a[..k] == a;
      CutFirst(a, b, sep);
    } else {
      var rest := a[k + 1..];
      CutHere(a, b, sep, k);
      CutSplit(rest, b, sep);
      CutFirst(a[..k], rest + [sep] + b, sep);
      Regroup(a[..k], Cut(rest, sep), Cut(b, sep));
    }
  }

  /** All pieces of several parts, in order. */
  function Pieces(parts: seq<string>, sep: char): seq<string>
    requires parts != []
  {
    if |parts| == 1 then Cut(parts[0], sep) else Cut(parts[0], sep) + Pieces(parts[1..], sep)
  }

  lemma {:induction false} CutJoin(parts: seq<string>, sep: char)
    requires parts != []
    ensures Cut(Join(parts, sep), sep) == Pieces(parts, sep)
  {
    if |parts| > 1 {
      CutJoin(parts[1..], sep);
      CutSplit(parts[0], Join(parts[1..], sep), sep);
    }
  }

  /** Joined strings agree exactly when the pieces of their parts do. */
  lemma JoinExact(p: seq<string>, q: seq<string>, sep: char)
    requires p != [] && q != []
    ensures Join(p, sep) == Join(q, sep) <==> Pieces(p, sep) == Pieces(q, sep)
  {
    CutJoin(p, sep);
    CutJoin(q, sep);
    JoinCut(Join(p, sep), sep);
    JoinCut(Join(q, sep), sep);
  }

  // Text.

  /** Unicode's white space. */
  predicate IsSpace(c: char) {
    || '\U{9}' <= c <= '\U{D}' || c == ' ' || c == '\U{85}' || c == '\U{A0}' || c == '\U{1680}'
    || '\U{2000}' <= c <= '\U{200A}' || c == '\U{2028}' || c == '\U{2029}' || c == '\U{202F}'
    || c == '\U{205F}' || c == '\U{3000}'
  }

  predicate Word(s: string) {
    s != "" && forall i | 0 <= i < |s| :: !IsSpace(s[i])
  }

  /** The length of the leading run of characters that are no white space. */
  function WordEnd(s: string): (k: nat)
    ensures k <= |s| && (forall i | 0 <= i < k :: !IsSpace(s[i])) && (k < |s| ==> IsSpace(s[k]))
  {
    if s == "" || IsSpace(s[0]) then 0 else 1 + WordEnd(s[1..])
  }

  /** The words between runs of white space. */
  function Fields(s: string): seq<string>
    decreases |s|
  {
    if s == "" then []
    else if IsSpace(s[0]) then Fields(s[1..])
    else [s[..WordEnd(s)]] + Fields(s[WordEnd(s)..])
  }

  function CanonicalText(s: string): string { Join(Fields(s), ' ') }

  predicate Words(ws: seq<string>) { forall i | 0 <= i < |ws| :: Word(ws[i]) }

  lemma {:induction false} FieldsAreWords(s: string)
    ensures Words(Fields(s))
    decreases |s|
  {
    if s != "" {
      if IsSpace(s[0]) {
        FieldsAreWords(s[1..]);
      } else {
        FieldsAreWords(s[WordEnd(s)..]);
      }
    }
  }

  lemma WordEndUnique(s: string, k: nat)
    requires k <= |s| && (forall i | 0 <= i < k :: !IsSpace(s[i])) && (k < |s| ==> IsSpace(s[k]))
    ensures WordEnd(s) == k
  {
    var e := WordEnd(s);
    assert e < |s| ==> IsSpace(s[e]);
  }

  /** A space behind the text does not move the end of its first word. */
  lemma FirstWordStays(a: string, c: char, b: string)
    requires IsSpace(c)
    ensures WordEnd(a + [c] + b) == WordEnd(a)
  {
    var s, k := a + [c] + b, WordEnd(a);
    assert forall i | 0 <= i < k :: s[i] == a[i];
    assert s[k] == if k < |a| then a[k] else c;
    WordEndUnique(s, k);
  }

  lemma FieldsFront(s: string)
    requires s != "" && !IsSpace(s[0])
    ensures Fields(s) == [s[..WordEnd(s)]] + Fields(s[WordEnd(s)..])
  {
  }

  lemma FieldsSpace(s: string)
    requires s != "" && IsSpace(s[0])
    ensures Fields(s) == Fields(s[1..])
  {
  }

  lemma Slices(a: string, c: char, b: string, k: nat)
    requires k <= |a|
    ensures (a + [c] + b)[k..] == a[k..] + [c] + b && (a + [c] + b)[..k] == a[..k]
  {
  }

  lemma Regroup(w: string, x: seq<string>, y: seq<string>)
    ensures [w] + (x + y) == ([w] + x) + y
  {
  }

  lemma FieldsSplitWord(a: string, c: char, b: string, k: nat)
    requires IsSpace(c) && a != "" && !IsSpace(a[0]) && k == WordEnd(a)
    requires Fields(a[k..] + [c] + b) == Fields(a[k..]) + Fields(b)
    ensures Fields(a + [c] + b) == Fields(a) + Fields(b)
  {
    FirstWordStays(a, c, b);
    Slices(a, c, b, k);
    FieldsFront(a + [c] + b);
    FieldsFront(a);
    Regroup(a[..k], Fields(a[k..]), Fields(b));
  }

  /** A space anywhere splits the text into the words before and the words after it. */
  lemma {:induction false} FieldsSplit(a: string, c: char, b: string)
    requires IsSpace(c)
    ensures Fields(a + [c] + b) == Fields(a) + Fields(b)
    decreases |a|
  {
    var s := a + [c] + b;
    if a == "" {
      assert s[0] == c && s[1..] == b;
      FieldsSpace(s);
    } else if IsSpace(a[0]) {
      FieldsSplit(a[1..], c, b);
      assert s[0] == a[0] && s[1..] == a[1..] + [c] + b;
      FieldsSpace(s);
      FieldsSpace(a);
    } else {
      var k := WordEnd(a);
      assert k > 0;
      FieldsSplit(a[k..], c, b);
      FieldsSplitWord(a, c, b, k);
    }
  }

  lemma OneWord(w: string)
    requires Word(w)
    ensures Fields(w) == [w]
  {
    WordEndUnique(w, |w|);
    assert w[..|w|] == w && w[|w|..] == "";
  }

  /** Splitting undoes joining. */
  lemma {:induction false} FieldsJoin(ws: seq<string>)
    requires Words(ws)
    ensures Fields(Join(ws, ' ')) == ws
  {
    if |ws| == 1 {
      OneWord(ws[0]);
      assert ws == [ws[0]];
    } else if |ws| > 1 {
      FieldsJoin(ws[1..]);
      OneWord(ws[0]);
      FieldsSplit(ws[0], ' ', Join(ws[1..], ' '));
      assert ws == [ws[0]] + ws[1..];
    }
  }

  /** Canonical text is canonical, and keeps exactly the words. */
  lemma CanonicalTextIdempotent(s: string)
    ensures CanonicalText(CanonicalText(s)) == CanonicalText(s) && Fields(CanonicalText(s)) == Fields(s)
  {
    FieldsAreWords(s);
    FieldsJoin(Fields(s));
  }

  lemma CanonicalTextExact(s: string, t: string)
    ensures CanonicalText(s) == CanonicalText(t) <==> Fields(s) == Fields(t)
  {
    CanonicalTextIdempotent(s);
    CanonicalTextIdempotent(t);
  }

  // Knobs.

  /** To the nearest whole number, halves to the even one. */
  function HalfEven(x: real): (r: int)
    ensures -0.5 <= x - r as real <= 0.5
    ensures (x - r as real == 0.5 || x - r as real == -0.5) ==> r % 2 == 0
  {
    var f := x.Floor;
    var rest := x - f as real;
    if rest < 0.5 || (rest == 0.5 && f % 2 == 0) then f else f + 1
  }

  /** A knob as it is printed: its sign and its size in ten-thousandths. */
  datatype Fixed = Fixed(negative: bool, size: nat)

  function Rounded(v: real): (r: Fixed) {
    if v < 0.0 then Fixed(true, HalfEvenSize(-v)) else Fixed(false, HalfEvenSize(v))
  }

  function HalfEvenSize(v: real): nat
    requires v >= 0.0
  {
    HalfEven(v * 10000.0)
  }

  function RenderFixed(f: Fixed): string {
    Sign(f.negative) + Decimal.Render(f.size / 10000) + "." + Decimal.Padded(f.size % 10000, 4)
  }

  function RenderInt(n: int): string {
    Sign(n < 0) + Decimal.Render(if n < 0 then -n else n)
  }

  predicate Plain(s: string) {
    forall i | 0 <= i < |s| :: s[i] in {'-', '+', '.', 'N', 'a', 'I', 'n', 'f'} || '0' <= s[i] <= '9'
  }

  function Sign(negative: bool): string { if negative then "-" else "" }

  /** A sign and digits determine both. */
  lemma SignedDigits(x: bool, y: bool, v: string, w: string)
    requires |v| > 0 && |w| > 0 && Decimal.Digits(v) && Decimal.Digits(w) && Sign(x) + v == Sign(y) + w
    ensures x == y && v == w
  {
    assert (Sign(x) + v)[0] == if x then '-' else v[0];
    assert (Sign(y) + w)[0] == if y then '-' else w[0];
    SamePrefix(Sign(x), v, w);
  }

  lemma SignedFree(x: bool, v: string)
    requires Decimal.Digits(v)
    ensures Free(Sign(x) + v, '.')
  {
  }

  lemma RenderFixedInjective(a: Fixed, b: Fixed)
    requires RenderFixed(a) == RenderFixed(b)
    ensures a == b
  {
    var wa, wb := Decimal.Render(a.size / 10000), Decimal.Render(b.size / 10000);
    var fa, fb := Decimal.Padded(a.size % 10000, 4), Decimal.Padded(b.size % 10000, 4);
    SignedFree(a.negative, wa);
    SignedFree(b.negative, wb);
    FirstSeparator(Sign(a.negative) + wa, Sign(b.negative) + wb, fa, fb, '.');
    SignedDigits(a.negative, b.negative, wa, wb);
    Decimal.RenderRoundTrip(a.size / 10000);
    Decimal.RenderRoundTrip(b.size / 10000);
    Decimal.PaddedRoundTrip(a.size % 10000, 4);
    Decimal.PaddedRoundTrip(b.size % 10000, 4);
  }

  lemma RenderIntInjective(a: int, b: int)
    requires RenderInt(a) == RenderInt(b)
    ensures a == b
  {
    var x, y := if a < 0 then -a else a, if b < 0 then -b else b;
    SignedDigits(a < 0, b < 0, Decimal.Render(x), Decimal.Render(y));
    Decimal.RenderRoundTrip(x);
    Decimal.RenderRoundTrip(y);
  }

  /** A 64-bit floating-point number: its exact value, or one of the special ones. */
  datatype Float = Finite(v: real) | NegativeZero | NaN | Infinite(negative: bool)

  /** A knob as it is printed. */
  datatype Print = Number(f: Fixed) | NotANumber | Infinity(negative: bool)

  function Printed(x: Float): Print {
    match x
    case Finite(v) => Number(Rounded(v))
    case NegativeZero => Number(Fixed(true, 0))
    case NaN => NotANumber
    case Infinite(negative) => Infinity(negative)
  }

  function RenderKnob(p: Print): string {
    match p
    case Number(f) => RenderFixed(f)
    case NotANumber => "NaN"
    case Infinity(negative) => if negative then "-Inf" else "+Inf"
  }

  /** Printed numbers end in a digit, the others do not. */
  lemma EndsInDigit(f: Fixed)
    ensures |RenderFixed(f)| > 0 && '0' <= RenderFixed(f)[|RenderFixed(f)| - 1] <= '9'
  {
    var part := Decimal.Padded(f.size % 10000, 4);
    assert RenderFixed(f)[|RenderFixed(f)| - 1] == part[|part| - 1];
  }

  lemma RenderKnobInjective(a: Print, b: Print)
    requires RenderKnob(a) == RenderKnob(b)
    ensures a == b
  {
    if a.Number? { EndsInDigit(a.f); }
    if b.Number? { EndsInDigit(b.f); }
    if a.Number? && b.Number? {
      RenderFixedInjective(a.f, b.f);
    } else {
      var s := RenderKnob(a);
      assert s[0] == RenderKnob(b)[0] && s[|s| - 1] == RenderKnob(b)[|s| - 1];
    }
  }

  lemma KnobPlain(p: Print)
    ensures Plain(RenderKnob(p))
  {
    if p.Number? {
      RenderedPlain(p.f, 0);
    }
  }

  lemma RenderedPlain(f: Fixed, n: int)
    ensures Plain(RenderFixed(f)) && Plain(RenderInt(n))
  {
    var whole, part := Decimal.Render(f.size / 10000), Decimal.Padded(f.size % 10000, 4);
    assert Plain(whole) && Plain(part) && Plain(".") && Plain("-");
    assert Plain(Decimal.Render(if n < 0 then -n else n));
  }

  datatype Params = Params(
    cfg: Float, temperature: Float, topK: int, topP: Float, repetition: Float, eoa: int, rate: int)

  datatype Knobs = Knobs(
    cfg: Print, temperature: Print, topK: int, topP: Print, repetition: Print, eoa: int, rate: int)

  function Canonical(p: Params): Knobs {
    Knobs(Printed(p.cfg), Printed(p.temperature), p.topK, Printed(p.topP), Printed(p.repetition), p.eoa, p.rate)
  }

  const Labels: seq<string> := ["cfg=", "temp=", "topk=", "topp=", "rep=", "eoa=", "rate="]

  function Values(k: Knobs): (r: seq<string>)
    ensures |r| == 7
  {
    [RenderKnob(k.cfg), RenderKnob(k.temperature), RenderInt(k.topK), RenderKnob(k.topP),
     RenderKnob(k.repetition), RenderInt(k.eoa), RenderInt(k.rate)]
  }

  function Labelled(vs: seq<string>): (r: seq<string>)
    requires |vs| == 7
    ensures |r| == 7 && forall i | 0 <= i < 7 :: r[i] == Labels[i] + vs[i]
  {
    seq(7, i requires 0 <= i < 7 => Labels[i] + vs[i])
  }

  function CanonicalParams(p: Params): string {
    Join(Labelled(Values(Canonical(p))), ',')
  }

  lemma ValuesPlain(k: Knobs, i: nat)
    requires i < 7
    ensures Plain(Values(k)[i])
  {
    KnobPlain(k.cfg);
    KnobPlain(k.temperature);
    KnobPlain(k.topP);
    KnobPlain(k.repetition);
    RenderedPlain(Fixed(false, 0), k.topK);
    RenderedPlain(Fixed(false, 0), k.eoa);
    RenderedPlain(Fixed(false, 0), k.rate);
  }

  lemma LabelsFree(i: nat)
    requires i < 7
    ensures Free(Labels[i], ',') && Free(Labels[i], '|')
  {
    assert Labels[i] in ["cfg=", "temp=", "topk=", "topp=", "rep=", "eoa=", "rate="];
  }

  lemma LabelledFree(k: Knobs, i: nat)
    requires i < 7
    ensures Free(Labelled(Values(k))[i], ',') && Free(Labelled(Values(k))[i], '|')
  {
    LabelsFree(i);
    ValuesPlain(k, i);
  }

  lemma SamePrefix(l: string, x: string, y: string)
    requires l + x == l + y
    ensures x == y
  {
    assert (l + x)[|l|..] == x && (l + y)[|l|..] == y;
  }

  lemma ValuesInjective(a: Knobs, b: Knobs)
    requires Values(a) == Values(b)
    ensures a == b
  {
    var va, vb := Values(a), Values(b);
    assert va[0] == vb[0] && va[1] == vb[1] && va[2] == vb[2] && va[3] == vb[3];
    assert va[4] == vb[4] && va[5] == vb[5] && va[6] == vb[6];
    RenderKnobInjective(a.cfg, b.cfg);
    RenderKnobInjective(a.temperature, b.temperature);
    RenderIntInjective(a.topK, b.topK);
    RenderKnobInjective(a.topP, b.topP);
    RenderKnobInjective(a.repetition, b.repetition);
    RenderIntInjective(a.eoa, b.eoa);
    RenderIntInjective(a.rate, b.rate);
  }

  /** The rendered knobs determine the rounded knobs. */
  lemma ParamsExact(p: Params, q: Params)
    ensures CanonicalParams(p) == CanonicalParams(q) <==> Canonical(p) == Canonical(q)
    ensures Free(CanonicalParams(p), '|')
  {
    var kp, kq := Canonical(p), Canonical(q);
    var lp, lq := Labelled(Values(kp)), Labelled(Values(kq));
    forall i: nat | i < 7
      ensures Free(lp[i], ',') && Free(lp[i], '|') && Free(lq[i], ',')
    {
      LabelledFree(kp, i);
      LabelledFree(kq, i);
    }
    JoinFree(lp, ',', '|');
    if CanonicalParams(p) == CanonicalParams(q) {
      JoinInjective(lp, lq, ',');
      forall i | 0 <= i < 7
        ensures Values(kp)[i] == Values(kq)[i]
      {
        SamePrefix(Labels[i], Values(kp)[i], Values(kq)[i]);
      }
      ValuesInjective(kp, kq);
    }
  }

  // The whole key.

  datatype Input = Input(version: string, voice: string, normalize: bool, params: Params, text: string)

  function Flag(b: bool): string { if b then "true" else "false" }

  function Parts(i: Input): (r: seq<string>)
    ensures |r| == 5
  {
    [i.version, i.voice, Flag(i.normalize), CanonicalParams(i.params), CanonicalText(i.text)]
  }

  /** The string that is hashed. */
  function PreHash(i: Input): string { Join(Parts(i), '|') }

  lemma PartsFree(i: Input, k: nat)
    requires Free(i.version, '|') && Free(i.voice, '|') && k < 4
    ensures Free(Parts(i)[k], '|')
  {
    ParamsExact(i.params, i.params);
  }

  lemma PartsExact(a: Input, b: Input)
    requires Free(a.version, '|') && Free(a.voice, '|') && Free(b.version, '|') && Free(b.voice, '|')
    requires PreHash(a) == PreHash(b)
    ensures forall k | 0 <= k < 5 :: Parts(a)[k] == Parts(b)[k]
  {
    forall k: nat | k < 4
      ensures Free(Parts(a)[k], '|') && Free(Parts(b)[k], '|')
    {
      PartsFree(a, k);
      PartsFree(b, k);
    }
    JoinInjective(Parts(a), Parts(b), '|');
  }

  /** Two inputs share a pre-hash string exactly when version, voice, flag, rounded knobs and words
      agree; the text itself may hold separators. */
  lemma KeyExact(a: Input, b: Input)
    requires Free(a.version, '|') && Free(a.voice, '|') && Free(b.version, '|') && Free(b.voice, '|')
    ensures PreHash(a) == PreHash(b) <==>
            a.version == b.version && a.voice == b.voice && a.normalize == b.normalize
            && Canonical(a.params) == Canonical(b.params) && Fields(a.text) == Fields(b.text)
  {
    ParamsExact(a.params, b.params);
    CanonicalTextExact(a.text, b.text);
    if PreHash(a) == PreHash(b) {
      PartsExact(a, b);
      assert Parts(a)[0] == Parts(b)[0] && Parts(a)[1] == Parts(b)[1] && Parts(a)[2] == Parts(b)[2];
      assert Parts(a)[3] == Parts(b)[3] && Parts(a)[4] == Parts(b)[4];
      assert Flag(a.normalize)[0] == Flag(b.normalize)[0];
    }
  }

  /** Non-negative knobs print alike exactly when they round to the same ten-thousandth. */
  lemma NonNegativeKnobs(v: real, w: real)
    requires v >= 0.0 && w >= 0.0
    ensures RenderFixed(Rounded(v)) == RenderFixed(Rounded(w)) <==> HalfEven(v * 10000.0) == HalfEven(w * 10000.0)
  {
    if RenderFixed(Rounded(v)) == RenderFixed(Rounded(w)) {
      RenderFixedInjective(Rounded(v), Rounded(w));
    }
  }

  /** Rounding ignores the sign's side of zero. */
  lemma HalfEvenOdd(x: real)
    ensures HalfEven(-x) == -HalfEven(x)
  {
    var a, b := HalfEven(-x), -HalfEven(x);
    assert a as real - 0.5 <= -x <= a as real + 0.5;
    assert b as real - 0.5 <= -x <= b as real + 0.5;
  }

  lemma RoundedSigned(v: real)
    ensures Rounded(v).negative == (v < 0.0)
    ensures Rounded(v).size == if v < 0.0 then -HalfEven(v * 10000.0) else HalfEven(v * 10000.0)
  {
    HalfEvenOdd(v * 10000.0);
    assert -v * 10000.0 == -(v * 10000.0);
  }

  predicate IsNumber(x: Float) { x.Finite? || x.NegativeZero? }

  /** The sign bit. */
  predicate Negative(x: Float)
    requires IsNumber(x)
  {
    x.NegativeZero? || x.v < 0.0
  }

  /** The nearest ten-thousandth. */
  function Nearest(x: Float): int
    requires IsNumber(x)
  {
    if x.NegativeZero? then 0 else HalfEven(x.v * 10000.0)
  }

  lemma PrintedSigned(x: Float)
    requires IsNumber(x)
    ensures Printed(x) == Number(Fixed(Negative(x), if Negative(x) then -Nearest(x) else Nearest(x)))
  {
    if x.Finite? {
      RoundedSigned(x.v);
    }
  }

  /** For all 64-bit numbers: rounding to the same ten-thousandth is not enough; two knobs print alike
      exactly when in addition their sign bits agree or they do not round to zero. Not-a-number prints
      like itself alone, and an infinity like one of its sign. */
  lemma SignedKnobs(x: Float, y: Float)
    ensures RenderKnob(Printed(x)) == RenderKnob(Printed(y)) <==>
            if IsNumber(x) && IsNumber(y)
            then Nearest(x) == Nearest(y) && (Negative(x) == Negative(y) || Nearest(x) != 0)
            else x == y
  {
    if RenderKnob(Printed(x)) == RenderKnob(Printed(y)) {
      RenderKnobInjective(Printed(x), Printed(y));
    }
    if IsNumber(x) && IsNumber(y) {
      PrintedSigned(x);
      PrintedSigned(y);
      NearestSign(x);
      NearestSign(y);
    }
  }

  lemma NearestSign(x: Float)
    requires IsNumber(x)
    ensures if Negative(x) then Nearest(x) <= 0 else Nearest(x) >= 0
  {
  }

  /** A knob a hair below zero, and the negative zero, print as minus zero and split one value over
      two keys. */
  lemma MinusZero()
    ensures Nearest(Finite(-0.00001)) == Nearest(Finite(0.0)) == Nearest(NegativeZero) == 0
    ensures RenderKnob(Printed(Finite(-0.00001))) != RenderKnob(Printed(Finite(0.0)))
    ensures RenderKnob(Printed(NegativeZero)) != RenderKnob(Printed(Finite(0.0)))
  {
    SignedKnobs(Finite(-0.00001), Finite(0.0));
    SignedKnobs(NegativeZero, Finite(0.0));
  }

  /** With separators anywhere: two inputs share a pre-hash string exactly when the pieces between the
      separators of version, voice, flag, knobs and words agree, wherever the parts end. */
  lemma CollidesExactly(a: Input, b: Input)
    ensures PreHash(a) == PreHash(b) <==> Pieces(Parts(a), '|') == Pieces(Parts(b), '|')
  {
    JoinExact(Parts(a), Parts(b), '|');
  }

  lemma JoinTwo(a: string, b: string, rest: seq<string>, sep: char)
    requires rest != []
    ensures Join([a, b] + rest, sep) == a + [sep] + b + [sep] + Join(rest, sep)
  {
    var tail := [b] + rest;
    assert ([a, b] + rest)[1..] == tail && tail[1..] == rest;
    assert Join(tail, sep) == b + [sep] + Join(rest, sep);
    assert a + [sep] + (b + [sep] + Join(rest, sep)) == a + [sep] + b + [sep] + Join(rest, sep);
  }

  /** Without the condition on separators different inputs share a key. */
  lemma SeparatorsCollide(a: string, b: string, c: string, n: bool, p: Params, text: string)
    ensures PreHash(Input(a + "|" + b, c, n, p, text)) == PreHash(Input(a, b + "|" + c, n, p, text))
  {
    var rest := [Flag(n), CanonicalParams(p), CanonicalText(text)];
    JoinTwo(a + "|" + b, c, rest, '|');
    JoinTwo(a, b + "|" + c, rest, '|');
    assert a + "|" + b + ['|'] + c == a + ['|'] + (b + "|" + c);
    assert [a + "|" + b, c] + rest == [a + "|" + b, c, rest[0], rest[1], rest[2]];
    assert [a, b + "|" + c] + rest == [a, b + "|" + c, rest[0], rest[1], rest[2]];
  }
}
