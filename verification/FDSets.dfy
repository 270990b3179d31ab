/** The set of watched descriptors and what `select` makes of it. */
module FDSets {

  const FD_SETSIZE: int := 1024

  predicate Ascending(s: seq<int>) {
    forall i, j :: 0 <= i < j < |s| ==> s[i] < s[j]
  }

  class FDSet {
    var fds: set<int>
    var fdMax: int
    var selected: seq<int>

    /** fdMax is above every descriptor in the set, as `select` needs. */
    ghost predicate Valid()
      reads this
    {
      fdMax >= 1 && forall n :: n in fds ==> 0 <= n < fdMax
    }

    constructor ()
      ensures Valid() && fds == {}
    {
      fds, fdMax, selected := {}, 1, [];
    }

    method Reset()
      modifies this
      ensures Valid() && fds == {}
    {
      fds, fdMax := {}, 1;
    }

    /** FD_SET is defined only below FD_SETSIZE. */
    method Set(fd: int)
      requires Valid() && 0 <= fd < FD_SETSIZE
      modifies this
      ensures Valid() && fds == old(fds) + {fd}
    {
      fds := fds + {fd};
      if fd >= fdMax {
        fdMax := fd + 1;
      }
    }

    /** The kernel keeps the watched descriptors that are ready; they come back in ascending order,
        each once, and none is missed. */
    method Select(ready: set<int>) returns (result: seq<int>)
      requires Valid()
      modifies this
      ensures Valid() && fds == old(fds) * ready
      ensures Ascending(result) && forall n :: n in result <==> n in old(fds) && n in ready
    {
      selected := [];
      fds := fds * ready;
      assert forall n :: n in fds <==> n in old(fds) && n in ready;
      if fds != {} {
        var i := 0;
        while i < fdMax
          invariant 0 <= i <= fdMax
          invariant fds == old(fds) * ready && fdMax == old(fdMax)
          invariant Ascending(selected)
          invariant forall n :: n in selected <==> n in fds && n < i
        {
          if i in fds {
            assert forall j :: 0 <= j < |selected| ==> selected[j] in selected;
            selected := selected + [i];
          }
          i := i + 1;
        }
      }
      result := selected;
    }
  }
}
