/**
 * The owner check the batch handlers run over the owners their lookup
 * returned (card, score and deck batch inserts): one mismatch rejects the
 * whole batch before anything is written.
 */
module Authorization {

  /** The loop `for owner in owners { if id != owner { return Err(..) } }`:
      succeeds exactly when every returned owner is the caller. */
  method CheckOwners(owners: seq<int>, caller: int) returns (ok: bool)
    ensures ok <==> forall i :: 0 <= i < |owners| ==> owners[i] == caller
    ensures !ok ==> exists i :: 0 <= i < |owners| && owners[i] != caller
  {
    var i := 0;
    while i < |owners|
      invariant 0 <= i <= |owners|
      invariant forall j :: 0 <= j < i ==> owners[j] == caller
    {
      if owners[i] != caller {
        return false;
      }
      i := i + 1;
    }
    return true;
  }
}
