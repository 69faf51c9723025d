/** The project proposal form: four text fields that must all be filled in, one
    `proposeProject` contract write whose amount is the entered text scaled to 18
    decimals, and a reset of the fields once the transaction is confirmed. */
module ProjectProposal {
  import opened Common

  /** The number of decimals of the requested amount on the ledger. */
  const Decimals: nat := 18

  function Pow10(k: nat): (p: nat)
    ensures p >= 1
  {
    if k == 0 then 1 else 10 * Pow10(k - 1)
  }

  /** `parseUnits(text, decimals)` for unsigned decimal text: digits, optionally
      followed by a '.' and at most `decimals` fractional digits. Either part may be
      empty, and an empty part counts as 0 ("" and "." give 0, ".5" half a unit).
      `None` stands for a conversion that throws (or text outside these forms, see the
      README). */
  function ParseUnits(s: string, decimals: nat): (r: Option<nat>)
    ensures AllDigits(s) ==> r == Some(DigitsValue(s) * Pow10(decimals))
    ensures s == [] ==> r == Some(0)
    // text holding anything but digits and points never converts
    ensures r.Some? ==> forall i :: 0 <= i < |s| ==> IsDigit(s[i]) || s[i] == '.'
  {
    if AllDigits(s) then Some(DigitsValue(s) * Pow10(decimals))
    else
      var k := DigitPrefixLength(s);
      if k < |s| && s[k] == '.' && AllDigits(s[k + 1..]) && |s| - (k + 1) <= decimals then
        assert forall i :: 0 <= i < |s| ==> IsDigit(s[i]) || s[i] == '.' by {
          forall i | 0 <= i < |s| ensures IsDigit(s[i]) || s[i] == '.' {
            if i < k { assert s[..k][i] == s[i]; }
            else if i > k { assert s[k + 1..][i - (k + 1)] == s[i]; }
          }
        }
        Some(Units(DigitsValue(s[..k]), DigitsValue(s[k + 1..]), |s| - (k + 1), decimals))
      else None
  }

  /** `whole` units plus a fraction of `fractionLength` digits with value `fraction`,
      counted in the smallest unit. */
  function Units(whole: nat, fraction: nat, fractionLength: nat, decimals: nat): nat
    requires fractionLength <= decimals
  {
    whole * Pow10(decimals) + fraction * Pow10(decimals - fractionLength)
  }

  /** A whole amount written in decimal is scaled by exactly 10^decimals. */
  lemma WholeAmountScaled(n: nat, decimals: nat)
    ensures ParseUnits(NatToDecimal(n), decimals) == Some(n * Pow10(decimals))
  {
    NatDecimalRoundTrip(n);
  }

  /** The fractional digits never reach the next whole unit: "w.f" lies in
      [w units, w + 1 units). */
  lemma FractionBelowOneUnit(whole: string, fraction: string, decimals: nat)
    requires AllDigits(whole) && AllDigits(fraction) && |fraction| <= decimals
    ensures var r := ParseUnits(whole + "." + fraction, decimals);
            r.Some?
            && DigitsValue(whole) * Pow10(decimals) <= r.value < (DigitsValue(whole) + 1) * Pow10(decimals)
  {
    ParseFractionText(whole, fraction, decimals);
    DigitsValueBound(fraction);
    UnitsBound(DigitsValue(whole), DigitsValue(fraction), |fraction|, decimals);
  }

  lemma ParseFractionText(whole: string, fraction: string, decimals: nat)
    requires AllDigits(whole) && AllDigits(fraction) && |fraction| <= decimals
    ensures ParseUnits(whole + "." + fraction, decimals)
            == Some(Units(DigitsValue(whole), DigitsValue(fraction), |fraction|, decimals))
  {
    var s := whole + "." + fraction;
    var k := |whole|;
    assert !IsDigit(s[k]);
    assert !AllDigits(s);
    DigitPrefixOf(whole, "." + fraction);
    assert DigitPrefixLength(s) == k;
    assert s[..k] == whole;
    assert s[k + 1..] == fraction;
    assert |s| - (k + 1) == |fraction|;
  }

  lemma UnitsBound(w: nat, f: nat, len: nat, decimals: nat)
    requires len <= decimals && f < Pow10(len)
    ensures w * Pow10(decimals) <= Units(w, f, len, decimals) < (w + 1) * Pow10(decimals)
  {
    Pow10Split(len, decimals - len);
    ScaledBounds(w, f, Pow10(len), Pow10(decimals - len), Pow10(decimals));
  }

  lemma ScaledBounds(w: nat, f: nat, q: nat, b: nat, p: nat)
    requires p == q * b && f < q && b >= 1
    ensures w * p <= w * p + f * b < (w + 1) * p
  {
    MulStrict(f, q, b);
    assert (w + 1) * p == w * p + p;
  }

  lemma MulStrict(f: nat, a: nat, b: nat)
    requires f < a && b >= 1
    ensures f * b < a * b
  {
    assert a * b == f * b + (a - f) * b;
  }

  lemma {:induction false} DigitsValueBound(s: string)
    requires AllDigits(s)
    ensures DigitsValue(s) < Pow10(|s|)
    decreases |s|
  {
    if s != [] {
      DigitsValueBound(s[..|s| - 1]);
    }
  }

  lemma {:induction false} Pow10Split(a: nat, b: nat)
    ensures Pow10(a + b) == Pow10(a) * Pow10(b)
    decreases a
  {
    if a > 0 {
      Pow10Split(a - 1, b);
    }
  }

  /** The contract write `proposeProject(name, description, githubUrl, amount)`. */
  datatype ProposeCall = ProposeProject(name: string, description: string, githubUrl: string, amount: nat)

  datatype Proposal = MissingFields | ConversionFailed | Write(call: ProposeCall)

  predicate AllFilled(name: string, description: string, githubUrl: string, requestedAmount: string)
  {
    name != "" && description != "" && githubUrl != "" && requestedAmount != ""
  }

  /** What `handleProposeProject` asks the ledger for, given the field values. */
  function ProposalFor(name: string, description: string, githubUrl: string, requestedAmount: string): (p: Proposal)
    ensures p == MissingFields <==> !AllFilled(name, description, githubUrl, requestedAmount)
    ensures p.Write? <==> AllFilled(name, description, githubUrl, requestedAmount) && ParseUnits(requestedAmount, Decimals).Some?
    ensures p.Write? ==>
      p.call == ProposeProject(name, description, githubUrl, ParseUnits(requestedAmount, Decimals).value)
  {
    if !AllFilled(name, description, githubUrl, requestedAmount) then MissingFields
    else match ParseUnits(requestedAmount, Decimals)
      case None => ConversionFailed
      case Some(amount) => Write(ProposeProject(name, description, githubUrl, amount))
  }

  /** The submit button is disabled while the write is pending or confirming. */
  function SubmitDisabled(isPending: bool, isConfirming: bool): (d: bool)
    ensures d <==> isPending || isConfirming
  {
    isPending || isConfirming
  }

  datatype Submission = NotSubmitted(reason: Proposal) | WriteThrew | Submitted(call: ProposeCall)

  class ProposalForm {
    var projectName: string
    var description: string
    var githubUrl: string
    var requestedAmount: string
    /** The `proposeProject` writes issued so far, in order. */
    var writes: seq<ProposeCall>

    constructor ()
      ensures projectName == description == githubUrl == requestedAmount == "" && writes == []
    {
      projectName, description, githubUrl, requestedAmount := "", "", "", "";
      writes := [];
    }

    /** `handleProposeProject`; `writeThrows` says whether `writeContract` throws. The
        fields are never changed here, whatever happens. */
    method HandleProposeProject(writeThrows: bool) returns (s: Submission)
      modifies this`writes
      ensures var p := ProposalFor(projectName, description, githubUrl, requestedAmount);
              (!p.Write? ==> s == NotSubmitted(p) && writes == old(writes))
              && (p.Write? && writeThrows ==> s == WriteThrew && writes == old(writes))
              && (p.Write? && !writeThrows ==> s == Submitted(p.call) && writes == old(writes) + [p.call])
    {
      var p := ProposalFor(projectName, description, githubUrl, requestedAmount);
      if !p.Write? {
        return NotSubmitted(p);
      }
      if writeThrows {
        return WriteThrew;
      }
      writes := writes + [p.call];
      s := Submitted(p.call);
    }

    /** The confirmation effect: all four fields become empty. */
    method OnConfirmed()
      modifies this`projectName, this`description, this`githubUrl, this`requestedAmount
      ensures projectName == description == githubUrl == requestedAmount == ""
      ensures writes == old(writes)
    {
      projectName, description, githubUrl, requestedAmount := "", "", "", "";
    }
  }
}
