/**
 The aspect-ratio label of the drawer: "FREE" when the ratio is not fixed,
 otherwise the two ratio components joined by ':' in Java's decimal notation.
 A parser for that text is the partner that shows the label loses nothing.
 */
module Labels {
  import opened Optional
  import opened CropOptions

  const FreeLabel := "FREE"

  predicate IsDigit(c: char) {
    '0' <= c <= '9'
  }

  function DigitChar(d: nat): (c: char)
    requires d < 10
    ensures IsDigit(c) && c as int - '0' as int == d
  {
    ('0' as int + d) as char
  }

  /** Decimal digits of `n`, most significant first, without leading zeros. */
  function NatToString(n: nat): (s: string)
    ensures |s| > 0
    ensures forall i :: 0 <= i < |s| ==> IsDigit(s[i])
    ensures n > 0 ==> s[0] != '0'
    decreases n
  {
    if n < 10 then [DigitChar(n)] else NatToString(n / 10) + [DigitChar(n % 10)]
  }

  /** `Integer.toString`: a '-' before the digits of a negative number. */
  function IntToString(i: int): (s: string)
    ensures |s| > 0 && (s[0] == '-' || IsDigit(s[0]))
    ensures s[0] == '-' <==> i < 0
    ensures s[0] == '0' <==> i == 0
    ensures i == 0 ==> s == "0"
    ensures i < 0 ==> |s| >= 2 && s[1] != '0'
    ensures ':' !in s
  {
    if i < 0 then "-" + NatToString(-i) else NatToString(i)
  }

  /** The value of a run of decimal digits. */
  function DigitsValue(s: string): nat
    requires forall i :: 0 <= i < |s| ==> IsDigit(s[i])
  {
    if |s| == 0 then 0
    else
      assert IsDigit(s[|s| - 1]);
      DigitsValue(s[..|s| - 1]) * 10 + (s[|s| - 1] as int - '0' as int)
  }

  /** Reads canonical decimal digits: no leading zero unless the number is 0. */
  function ParseNat(s: string): Option<nat> {
    if |s| > 0 && (|s| == 1 || s[0] != '0') && forall i :: 0 <= i < |s| ==> IsDigit(s[i])
    then Some(DigitsValue(s))
    else None
  }

  /** Reads `Integer.toString` text: "-0" is refused, as Java never writes it. */
  function ParseInt(s: string): Option<int> {
    if |s| > 0 && s[0] == '-' then
      match ParseNat(s[1..])
      case Some(n) => if n == 0 then None else Some(-(n as int))
      case None => None
    else
      match ParseNat(s)
      case Some(n) => Some(n)
      case None => None
  }

  /** The index of the first occurrence of `c` in `s`, if any. */
  function FirstIndexOf(s: string, c: char): (r: Option<nat>)
    ensures r.None? <==> c !in s
    ensures r.Some? ==> r.value < |s| && s[r.value] == c && c !in s[..r.value]
  {
    if |s| == 0 then None
    else if s[0] == c then Some(0)
    else
      match FirstIndexOf(s[1..], c)
      case None => None
      case Some(k) =>
        assert s[..k + 1] == [s[0]] + s[1..][..k];
        Some(k + 1)
  }

  /** What an aspect-ratio label says. */
  datatype Shown = Free | Fixed(first: int, second: int)

  /** Reads an aspect-ratio label back. */
  function ParseAspectRatioLabel(t: string): Option<Shown> {
    if t == FreeLabel then Some(Free)
    else
      match FirstIndexOf(t, ':')
      case None => None
      case Some(k) =>
        match (ParseInt(t[..k]), ParseInt(t[k + 1..]))
        case (Some(a), Some(b)) => Some(Fixed(a, b))
        case _ => None
  }

  /** The aspect-ratio text the drawer shows for a record. */
  function AspectRatioLabel(o: Options): (text: string)
    ensures text == FreeLabel <==> !o.fixAspectRatio
    ensures o.fixAspectRatio ==> ':' in text
  {
    if o.fixAspectRatio then
      var head := IntToString(o.aspectRatio.first as int);
      assert (head + ":" + IntToString(o.aspectRatio.second as int))[|head|] == ':';
      head + ":" + IntToString(o.aspectRatio.second as int)
    else FreeLabel
  }

  /** What the label is meant to show: the fixed ratio, or that it is free. */
  function Meaning(o: Options): Shown {
    if o.fixAspectRatio then Fixed(o.aspectRatio.first as int, o.aspectRatio.second as int) else Free
  }

  lemma {:induction false} NatToStringRoundTrip(n: nat)
    ensures DigitsValue(NatToString(n)) == n
    decreases n
  {
    var s := NatToString(n);
    if n >= 10 {
      NatToStringRoundTrip(n / 10);
      assert s[..|s| - 1] == NatToString(n / 10);
    }
  }

  lemma IntToStringRoundTrip(i: int)
    ensures ParseInt(IntToString(i)) == Some(i)
  {
    var s := IntToString(i);
    if i < 0 {
      assert s[1..] == NatToString(-i);
      NatToStringRoundTrip(-i);
    } else {
      NatToStringRoundTrip(i);
    }
  }

  /** The label can be read back to exactly what it was made from. */
  lemma AspectRatioLabelRoundTrip(o: Options)
    ensures ParseAspectRatioLabel(AspectRatioLabel(o)) == Some(Meaning(o))
  {
    if o.fixAspectRatio {
      var a, b := o.aspectRatio.first as int, o.aspectRatio.second as int;
      var head, tail := IntToString(a), IntToString(b);
      var t := head + ":" + tail;
      assert t == AspectRatioLabel(o);
      assert t[..|head|] == head;
      assert t[|head| + 1..] == tail;
      assert ':' !in t[..|head|];
      assert FirstIndexOf(t, ':') == Some(|head|);
      IntToStringRoundTrip(a);
      IntToStringRoundTrip(b);
    }
  }

  /** Two records get the same label exactly when they mean the same ratio. */
  lemma AspectRatioLabelInjective(o: Options, p: Options)
    ensures AspectRatioLabel(o) == AspectRatioLabel(p) <==> Meaning(o) == Meaning(p)
  {
    AspectRatioLabelRoundTrip(o);
    AspectRatioLabelRoundTrip(p);
  }
}
