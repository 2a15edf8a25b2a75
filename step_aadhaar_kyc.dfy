/**
 * The in-flow e-KYC card of src/app/components/steps/StepAadhaarKyc.tsx: an
 * uncontrolled Aadhaar input grouped as "XXXX XXXX XXXX", and one button
 * that first sends the OTP and then moves the journey on.
 */
module AadhaarKycStep {
  import opened Text
  import opened Journey

  /**
   * The Aadhaar input's handler (lines 36-39): the digits, a space after the
   * fourth and after the eighth digit, cut to fourteen characters.
   */
  function GroupAadhaar(raw: string): string {
    var v0 := DigitsOnly(raw);
    var v1 := if |v0| > 4 then v0[..4] + " " + v0[4..] else v0;
    var v2 := if |v1| > 9 then v1[..9] + " " + v1[9..] else v1;
    Take(v2, 14)
  }

  /** The grouping spelled out on the digits it keeps: the first twelve. */
  function Grouped(d: string): string
    requires |d| <= 12
  {
    if |d| <= 4 then d
    else if |d| <= 8 then d[..4] + " " + d[4..]
    else d[..4] + " " + d[4..8] + " " + d[8..]
  }

  /** The first space: after the fourth digit. */
  lemma FirstSpace(d: string)
    requires |d| > 8
    ensures var v1 := d[..4] + " " + d[4..];
      |v1| > 9 && v1[..9] == d[..4] + " " + d[4..8] && v1[9..] == d[8..]
  {
    var v1 := d[..4] + " " + d[4..];
    assert v1[..9] == d[..4] + " " + d[4..8] by {
      forall i | 0 <= i < 9 ensures v1[i] == (d[..4] + " " + d[4..8])[i] {
      }
    }
    assert v1[9..] == d[8..] by {
      forall i | 9 <= i < |v1| ensures v1[i] == d[i - 1] {
      }
    }
  }

  /** The cut at fourteen characters keeps twelve digits. */
  lemma CutAtFourteen(d: string)
    requires |d| > 8
    ensures var v2 := d[..4] + " " + d[4..8] + " " + d[8..];
      Take(v2, 14) == Grouped(Take(d, 12))
  {
    var v2 := d[..4] + " " + d[4..8] + " " + d[8..];
    var t := Take(d, 12);
    var m := Text.Min(12, |d|);
    assert t == d[..m];
    assert t[..4] == d[..4] && t[4..8] == d[4..8] && t[8..] == d[8..m];
    assert Take(v2, 14) == Grouped(t) by {
      assert |Take(v2, 14)| == |Grouped(t)|;
      forall i | 0 <= i < |Grouped(t)| ensures Take(v2, 14)[i] == Grouped(t)[i] {
      }
    }
  }

  /** The handler is the grouping of the first twelve digits. */
  lemma GroupAadhaarIsGrouped(raw: string)
    ensures GroupAadhaar(raw) == Grouped(Take(DigitsOnly(raw), 12))
  {
    var d := DigitsOnly(raw);
    if |d| > 8 {
      FirstSpace(d);
      CutAtFourteen(d);
    } else {
      assert Take(d, 12) == d;
    }
  }

  /**
   * A grouping of digits is at most fourteen characters long and has spaces
   * at positions 4 and 9 and nowhere else.
   */
  lemma GroupedShape(d: string)
    requires |d| <= 12 && AllDigits(d)
    ensures |Grouped(d)| <= 14
    ensures var r := Grouped(d);
      forall i :: 0 <= i < |r| ==> (r[i] == ' ' <==> i == 4 || i == 9)
  {
    var r := Grouped(d);
    forall i | 0 <= i < |r| ensures r[i] == ' ' <==> i == 4 || i == 9 {
      if |d| > 8 {
        assert i < 4 ==> r[i] == d[i];
        assert 4 < i < 9 ==> r[i] == d[i - 1];
        assert 9 < i ==> r[i] == d[i - 2];
      } else if |d| > 4 {
        assert i < 4 ==> r[i] == d[i];
        assert 4 < i ==> r[i] == d[i - 1];
      }
    }
  }

  /** The handler's output has the shape "XXXX XXXX XXXX" and keeps the first twelve digits. */
  lemma GroupAadhaarShape(raw: string)
    ensures DigitsOnly(GroupAadhaar(raw)) == Take(DigitsOnly(raw), 12)
    ensures |GroupAadhaar(raw)| <= 14
    ensures var r := GroupAadhaar(raw);
      forall i :: 0 <= i < |r| ==> (r[i] == ' ' <==> i == 4 || i == 9)
  {
    var t := Take(DigitsOnly(raw), 12);
    GroupAadhaarIsGrouped(raw);
    GroupedShape(t);
    GroupedDigits(t);
  }

  /** Re-running the handler on what the input shows changes nothing. */
  lemma GroupAadhaarIdempotent(raw: string)
    ensures GroupAadhaar(GroupAadhaar(raw)) == GroupAadhaar(raw)
  {
    var t := Take(DigitsOnly(raw), 12);
    GroupAadhaarShape(raw);
    GroupAadhaarIsGrouped(raw);
    GroupAadhaarIsGrouped(GroupAadhaar(raw));
    assert Take(t, 12) == t;
  }

  /** A space between two pieces is dropped by the digit filter. */
  lemma DigitsAcrossSpace(a: string, b: string)
    ensures DigitsOnly(a + " " + b) == DigitsOnly(a) + DigitsOnly(b)
  {
    assert DigitsOnly(" ") == [] by {
      assert " "[1..] == [];
    }
    DigitsOnlyAppend(a + " ", b);
    DigitsOnlyAppend(a, " ");
  }

  /** The digits of a grouping are the digits grouped. */
  lemma GroupedDigits(d: string)
    requires |d| <= 12 && AllDigits(d)
    ensures DigitsOnly(Grouped(d)) == d
  {
    if |d| > 8 {
      var a, b, c := d[..4], d[4..8], d[8..];
      assert Grouped(d) == (a + " " + b) + " " + c;
      DigitsAcrossSpace(a + " " + b, c);
      DigitsAcrossSpace(a, b);
      assert DigitsOnly(a) == a && DigitsOnly(b) == b && DigitsOnly(c) == c;
      assert d == a + b + c;
    } else if |d| > 4 {
      var a, b := d[..4], d[4..];
      DigitsAcrossSpace(a, b);
      assert DigitsOnly(a) == a && DigitsOnly(b) == b;
      assert d == a + b;
    }
  }

  class Screen {
    var otpSent: bool
    /** The text the uncontrolled Aadhaar input shows. */
    var aadhaarText: string

    /** Line 14. */
    constructor ()
      ensures !otpSent && aadhaarText == ""
    {
      otpSent := false;
      aadhaarText := "";
    }

    /** The Aadhaar input (lines 28-40): the browser keeps at most fourteen typed characters, which are then grouped. */
    method OnAadhaarInput(value: string)
      modifies this`aadhaarText
      ensures aadhaarText == GroupAadhaar(Take(value, 14))
    {
      aadhaarText := GroupAadhaar(Take(value, 14));
    }

    /**
     * The button (lines 57-69): the first press sends the OTP, the second
     * moves the journey on. Nothing checks the Aadhaar number or the OTP.
     */
    method Press(p: Provider)
      requires p.Ready()
      modifies this`otpSent, p`index, p`branch, p`bottomBar, p`store, p`resumeInUrl
      ensures otpSent
      ensures !old(otpSent) ==>
        && p.index == old(p.index) && p.branch == old(p.branch) && p.store == old(p.store)
        && p.bottomBar == old(p.bottomBar) && p.resumeInUrl == old(p.resumeInUrl)
      ensures old(otpSent) ==>
        && p.Ready() && (old(p.Valid()) ==> p.Valid()) && (old(p.InRange()) ==> p.InRange())
        && p.AdvancedFrom(Capture(old(p.index), |p.steps|))
    {
      if otpSent {
        p.NextStep();
      } else {
        otpSent := true;
      }
    }

    /** The caption of the button (line 68). */
    function Caption(): (r: string)
      reads this
      ensures r == if otpSent then "Verify Aadhaar OTP" else "Send OTP"
    {
      if otpSent then "Verify Aadhaar OTP" else "Send OTP"
    }
  }
}
