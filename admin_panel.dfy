/** The admin panel gate: an owner test that ignores letter case (addresses may come
    in mixed-case checksum form), the ownership check that sets `isOwner` and
    `loading`, and the order in which the panel chooses what to show. */
module AdminPanel {
  import opened Common

  /** `toLowerCase` on one character; only ASCII letters have a lower-case form in
      this model, which covers hexadecimal addresses. */
  function LowerChar(c: char): (l: char)
    ensures 'A' <= c <= 'Z' ==> l as int == c as int + 32
    ensures !('A' <= c <= 'Z') ==> l == c
  {
    if 'A' <= c <= 'Z' then (c as int + 32) as char else c
  }

  function ToLower(s: string): (r: string)
    ensures |r| == |s|
    ensures forall i :: 0 <= i < |s| ==> r[i] == LowerChar(s[i])
  {
    seq(|s|, i requires 0 <= i < |s| => LowerChar(s[i]))
  }

  /** Two spellings of the same text that differ at most in letter case. */
  predicate SameIgnoringCase(a: string, b: string)
  {
    |a| == |b| && forall i :: 0 <= i < |a| ==> LowerChar(a[i]) == LowerChar(b[i])
  }

  /** `!owner || address.toLowerCase() === owner.toLowerCase()`: with no owner configured
      (missing or empty) every connected wallet is admitted. */
  function IsOwner(address: string, owner: Option<string>): (ok: bool)
    ensures !Truthy(owner) ==> ok
    ensures Truthy(owner) ==> (ok <==> SameIgnoringCase(address, owner.value))
  {
    var configured := if owner.Some? then ToLower(owner.value) else "";
    if configured == "" then true
    else
      assert ToLower(address) == configured <==> SameIgnoringCase(address, owner.value) by {
        if SameIgnoringCase(address, owner.value) {
          assert forall i :: 0 <= i < |address| ==> ToLower(address)[i] == configured[i];
        }
      }
      ToLower(address) == configured
  }

  /** Changing the case of letters in the address never changes the verdict. */
  lemma OwnerTestIgnoresCase(a: string, b: string, owner: Option<string>)
    requires SameIgnoringCase(a, b)
    ensures IsOwner(a, owner) == IsOwner(b, owner)
  {
    if Truthy(owner) {
      var o := owner.value;
      assert SameIgnoringCase(a, o) <==> SameIgnoringCase(b, o) by {
        if SameIgnoringCase(a, o) {
          assert forall i :: 0 <= i < |b| ==> LowerChar(b[i]) == LowerChar(a[i]) == LowerChar(o[i]);
        }
        if SameIgnoringCase(b, o) {
          assert forall i :: 0 <= i < |a| ==> LowerChar(a[i]) == LowerChar(b[i]) == LowerChar(o[i]);
        }
      }
    }
  }

  datatype View = LoadingView | ConnectWalletView | AccessDeniedView | AdminView

  /** Loading first, then "connect your wallet", then "access denied", then the panel. */
  function ViewFor(loading: bool, isConnected: bool, isOwner: bool): (v: View)
    ensures v == LoadingView <==> loading
    ensures v == ConnectWalletView <==> !loading && !isConnected
    ensures v == AccessDeniedView <==> !loading && isConnected && !isOwner
    ensures v == AdminView <==> !loading && isConnected && isOwner
  {
    if loading then LoadingView
    else if !isConnected then ConnectWalletView
    else if !isOwner then AccessDeniedView
    else AdminView
  }

  class AdminGate {
    var isOwner: bool
    var loading: bool

    constructor ()
      ensures !isOwner && loading
    {
      isOwner := false;
      loading := true;
    }

    /** `checkOwnership`; `lookupThrows` selects the error path of the check. */
    method CheckOwnership(address: Option<string>, owner: Option<string>, lookupThrows: bool)
      modifies this
      ensures !loading
      // with no wallet address the verdict is left as it was
      ensures !Truthy(address) ==> isOwner == old(isOwner)
      ensures Truthy(address) && lookupThrows ==> !isOwner
      ensures Truthy(address) && !lookupThrows ==> isOwner == IsOwner(address.value, owner)
    {
      if !Truthy(address) {
        loading := false;
        return;
      }
      if lookupThrows {
        isOwner := false;
      } else {
        isOwner := IsOwner(address.value, owner);
      }
      loading := false;
    }
  }
}
