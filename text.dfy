/**
 * String building the client does with template literals:
 * `Number.prototype.toString()` for non-negative integers,
 * `padStart(2, '0')`, and `Array.prototype.join`. Each builder comes with
 * the reader that undoes it, and the round trip is proved.
 */
module Text {

  import opened Common

  predicate IsDigit(c: char)
  {
    '0' <= c <= '9'
  }

  function DigitChar(d: nat): (c: char)
    requires d < 10
    ensures IsDigit(c)
  {
    (('0' as int) + d) as char
  }

  function DigitValue(c: char): nat
    requires IsDigit(c)
  {
    (c as int) - ('0' as int)
  }

  /** `n.toString()` for a non-negative integer: its decimal digits, no leading zero. */
  function NatToString(n: nat): (s: string)
    ensures |s| >= 1
    ensures forall i :: 0 <= i < |s| ==> IsDigit(s[i])
    ensures n < 10 <==> |s| == 1
    ensures |s| == 1 || s[0] != '0'
  {
    if n < 10 then [DigitChar(n)]
    else
      var high := NatToString(n / 10);
      assert |high| == 1 ==> high == [DigitChar(n / 10)] && high[0] != '0';
      high + [DigitChar(n % 10)]
  }

  /** The value of a string of decimal digits (the empty string reads as 0). */
  function ParseDigits(s: string): nat
    requires forall i :: 0 <= i < |s| ==> IsDigit(s[i])
  {
    if s == [] then 0 else ParseDigits(s[..|s| - 1]) * 10 + DigitValue(s[|s| - 1])
  }

  /** Reading back the decimal form of `n` gives `n`. */
  lemma {:induction false} NatToStringRoundTrip(n: nat)
    ensures ParseDigits(NatToString(n)) == n
  {
    var s := NatToString(n);
    if n < 10 {
      assert s[..0] == [];
    } else {
      NatToStringRoundTrip(n / 10);
      assert s[..|s| - 1] == NatToString(n / 10);
    }
  }

  /** `n.toString().padStart(2, '0')`. */
  function Pad2(n: nat): (s: string)
    ensures |s| >= 2
    ensures forall i :: 0 <= i < |s| ==> IsDigit(s[i])
    ensures n < 100 ==> |s| == 2
    ensures n >= 10 ==> s == NatToString(n)
    ensures n < 10 ==> s == ['0', DigitChar(n)]
  {
    var d := NatToString(n);
    if |d| < 2 then "0" + d else d
  }

  /** Padding adds only a leading zero, so the padded form still reads as `n`. */
  lemma Pad2RoundTrip(n: nat)
    ensures ParseDigits(Pad2(n)) == n
  {
    NatToStringRoundTrip(n);
    var d := NatToString(n);
    if |d| < 2 {
      var s := "0" + d;
      assert s[..1] == "0";
      assert s[..0] == [];
      assert ParseDigits(s) == ParseDigits(d);
    }
  }

  /** `s.endsWith(w)`. */
  predicate EndsWith(s: string, w: string)
  {
    |w| <= |s| && s[|s| - |w|..] == w
  }

  /** `segs.join(sep)`. */
  function Join(segs: seq<string>, sep: string): string
  {
    if |segs| == 0 then ""
    else if |segs| == 1 then segs[0]
    else segs[0] + sep + Join(segs[1..], sep)
  }

  /** The separator the admission form joins its summary segments with. */
  const Bar: string := " | "

  /** `s` holds the separator at position `k`. */
  predicate BarAt(s: string, k: nat)
  {
    k + 3 <= |s| && s[k..k + 3] == Bar
  }

  /** Index of the first occurrence of `" | "` in `s`, if any. */
  function FindBar(s: string): (r: Option<nat>)
    ensures r.Some? ==> BarAt(s, r.value)
    ensures r.Some? ==> forall k: nat :: k < r.value ==> !BarAt(s, k)
    ensures r.None? ==> forall k: nat :: !BarAt(s, k)
  {
    if |s| < 3 then None
    else if s[..3] == Bar then Some(0)
    else
      var rest := FindBar(s[1..]);
      ShiftWindows(s);
      assert !BarAt(s, 0) by { assert s[0..3] == s[..3]; }
      match rest
      case None => None
      case Some(i) => Some(i + 1)
  }

  /** A window of `s` after the first place is a window of `s[1..]` one place earlier. */
  lemma ShiftWindows(s: string)
    requires |s| >= 1
    ensures forall k: nat :: 1 <= k ==> (BarAt(s, k) <==> BarAt(s[1..], k - 1))
  {
    forall k: nat | 1 <= k ensures BarAt(s, k) <==> BarAt(s[1..], k - 1) {
      if k + 3 <= |s| {
        assert s[1..][k - 1..k + 2] == s[k..k + 3];
      }
    }
  }

  /** Cuts `s` at every `" | "`: the reader for `Join(segs, " | ")`. */
  function SplitBar(s: string): seq<string>
    decreases |s|
  {
    match FindBar(s)
    case None => [s]
    case Some(i) => [s[..i]] + SplitBar(s[i + 3..])
  }

  lemma {:induction false} FindBarNone(s: string)
    requires '|' !in s
    ensures FindBar(s) == None
  {
    if |s| >= 3 {
      assert s[..3] != Bar by { assert s[1] != '|'; }
      FindBarNone(s[1..]);
    }
  }

  lemma {:induction false} FindBarAfter(a: string, b: string)
    requires '|' !in a
    ensures FindBar(a + Bar + b) == Some(|a|)
  {
    var s := a + Bar + b;
    if a == [] {
      assert s[..3] == Bar;
    } else {
      assert s[..3] != Bar by {
        assert s[1] != '|';
      }
      assert s[1..] == a[1..] + Bar + b;
      FindBarAfter(a[1..], b);
    }
  }

  /**
   * Joining with `" | "` segments that contain no `'|'` can be undone:
   * cutting at every `" | "` gives the segments back.
   */
  lemma {:induction false} SplitJoinRoundTrip(segs: seq<string>)
    requires |segs| >= 1
    requires forall i :: 0 <= i < |segs| ==> '|' !in segs[i]
    ensures SplitBar(Join(segs, Bar)) == segs
  {
    if |segs| == 1 {
      FindBarNone(segs[0]);
    } else {
      var rest := Join(segs[1..], Bar);
      var s := segs[0] + Bar + rest;
      FindBarAfter(segs[0], rest);
      assert s[..|segs[0]|] == segs[0];
      assert s[|segs[0]| + 3..] == rest;
      SplitJoinRoundTrip(segs[1..]);
      assert [segs[0]] + segs[1..] == segs;
    }
  }
}
