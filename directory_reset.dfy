/** `removeDirectory`: empty a report directory except for its `.keep`
    placeholder, requesting a recursive delete for every unlink that fails. */
module DirectoryReset {

  /** The placeholder that keeps an emptied directory in place. */
  const Sentinel: string := ".keep"

  /** A report directory on disk. The recursive delete (`rimraf`) is not
      interpreted: every request for it is recorded with its glob pattern. */
  class Directory {
    const path: string
    var names: set<string>
    var fallbackRequests: seq<string>

    constructor (path: string, names: set<string>)
      ensures this.path == path && this.names == names && fallbackRequests == []
    {
      this.path := path;
      this.names := names;
      fallbackRequests := [];
    }
  }

  /** The glob handed to the recursive delete: the directory's path, a slash
      and a star. */
  function FallbackPattern(path: string): string
  {
    path + "/*"
  }

  /** The listed names whose unlink is attempted and succeeds. */
  function Unlinked(listing: seq<string>, unlinkFails: set<string>): set<string>
  {
    set n | n in listing && n != Sentinel && n !in unlinkFails
  }

  /** How many listed names other than the sentinel fail to unlink; each such
      failure issues one request for the recursive delete. */
  function FailedUnlinks(listing: seq<string>, unlinkFails: set<string>): nat
  {
    if listing == [] then 0
    else
      var n := |listing| - 1;
      FailedUnlinks(listing[..n], unlinkFails)
        + (if listing[n] != Sentinel && listing[n] in unlinkFails then 1 else 0)
  }

  /** `n` copies of `x`. */
  function Repeat(x: string, n: nat): (r: seq<string>)
    ensures |r| == n && forall i :: 0 <= i < n ==> r[i] == x
  {
    if n == 0 then [] else Repeat(x, n - 1) + [x]
  }

  /** The sentinel is never unlinked; every other listed name is unlinked
      unless its unlink fails. */
  lemma UnlinkedSparesSentinel(listing: seq<string>, unlinkFails: set<string>)
    ensures Sentinel !in Unlinked(listing, unlinkFails)
    ensures forall n :: n in listing && n != Sentinel ==> (n in Unlinked(listing, unlinkFails) <==> n !in unlinkFails)
  {
  }

  /** The recursive delete is requested exactly when some listed name other
      than the sentinel fails to unlink. */
  lemma {:induction false} FallbackIff(listing: seq<string>, unlinkFails: set<string>)
    ensures FailedUnlinks(listing, unlinkFails) > 0 <==>
      exists i :: 0 <= i < |listing| && listing[i] != Sentinel && listing[i] in unlinkFails
  {
    if listing != [] {
      var n := |listing| - 1;
      FallbackIff(listing[..n], unlinkFails);
      if FailedUnlinks(listing[..n], unlinkFails) > 0 {
        var i :| 0 <= i < n && listing[..n][i] != Sentinel && listing[..n][i] in unlinkFails;
        assert listing[i] == listing[..n][i];
      }
      if i :| 0 <= i < |listing| && listing[i] != Sentinel && listing[i] in unlinkFails {
        if i < n {
          assert listing[..n][i] == listing[i];
        }
      }
    }
  }

  /** When the listing is the directory's content and every unlink succeeds,
      only the sentinel is left (if it was there), and the recursive delete
      is never requested; an empty directory stays empty. */
  lemma ResetLeavesOnlySentinel(names: set<string>, listing: seq<string>)
    requires forall n :: n in listing <==> n in names
    ensures names - Unlinked(listing, {}) == names * {Sentinel}
    ensures FailedUnlinks(listing, {}) == 0
  {
    FallbackIff(listing, {});
  }
}
