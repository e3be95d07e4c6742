/**
 One runtime generation and its leases: the reference count, the retirement flag,
 the drain signal and the close-once guard.  `Life` is the value of a generation's
 private fields; the functions are its critical sections; the classes are the
 objects that run them in place.
 */
module Generations {
  import opened Options

  /**
   `drained` counts how often the drain channel was closed (a second close would
   panic), `closeRuns` counts how often the component close function ran, and
   `panicked` records a release without an active lease.
   */
  datatype Life = Life(
    active: int, retired: bool, drained: nat, closeOnce: bool, closeRuns: nat, panicked: bool)

  const FRESH := Life(0, false, 0, false, 0, false)

  function Acquired(g: Life): Life {
    if g.retired then g else g.(active := g.active + 1)
  }

  function Released(g: Life): Life {
    if g.active <= 0 then
      g.(panicked := true)
    else
      g.(active := g.active - 1,
         drained := if g.retired && g.active == 1 then g.drained + 1 else g.drained)
  }

  function Retired(g: Life): Life {
    if g.retired then g
    else g.(retired := true, drained := if g.active == 0 then g.drained + 1 else g.drained)
  }

  function Closed(g: Life): Life {
    if g.closeOnce then g else g.(closeOnce := true, closeRuns := g.closeRuns + 1)
  }

  class Generation {
    var active: int
    var retired: bool
    var drained: nat
    var closeOnce: bool
    var closeRuns: nat
    ghost var live: set<Lease>

    ghost function View(): Life
      reads this
    {
      Life(active, retired, drained, closeOnce, closeRuns, false)
    }

    /** Counting is exact: users, drain signal and close function. */
    ghost predicate Valid()
      reads this
    {
      && active == |live|
      && drained == (if retired && live == {} then 1 else 0)
      && closeRuns == (if closeOnce then 1 else 0)
    }

    constructor ()
      ensures Valid() && View() == FRESH && live == {}
    {
      active, retired, drained, closeOnce, closeRuns := 0, false, 0, false, 0;
      live := {};
    }

    /** A new lease on a generation that is not retired. */
    method Retain() returns (lease: Option<Lease>)
      requires Valid()
      modifies this
      ensures Valid() && View() == Acquired(old(View()))
      ensures lease.Some? <==> !old(retired)
      ensures lease.None? ==> live == old(live)
      ensures lease.Some? ==>
                fresh(lease.value) && lease.value.Valid() && lease.value.generation == this
                && live == old(live) + {lease.value}
    {
      if retired {
        return None;
      }
      active := active + 1;
      var taken := new Lease(this);
      live := live + {taken};
      lease := Some(taken);
    }

    /** Called once for each lease; the branch that panics on a release too many is never reached. */
    method Release(ghost lease: Lease)
      requires Valid() && lease in live
      modifies this
      ensures Valid() && View() == Released(old(View())) && live == old(live) - {lease}
    {
      live := live - {lease};
      if active <= 0 {
        assert false;
      }
      active := active - 1;
      if retired && active == 0 {
        drained := drained + 1;
      }
    }

    method Retire()
      requires Valid()
      modifies this
      ensures Valid() && View() == Retired(old(View())) && live == old(live)
    {
      if retired {
        return;
      }
      retired := true;
      if active == 0 {
        drained := drained + 1;
      }
    }

    method Close()
      requires Valid()
      modifies this
      ensures Valid() && View() == Closed(old(View())) && live == old(live)
    {
      if !closeOnce {
        closeOnce := true;
        closeRuns := closeRuns + 1;
      }
    }
  }

  class Lease {
    const generation: Generation
    var once: bool

    /** A lease counts as a user until it is closed. */
    ghost predicate Valid()
      reads this, generation
    {
      generation.Valid() && (this in generation.live <==> !once)
    }

    constructor (generation: Generation)
      ensures this.generation == generation && !once
    {
      this.generation := generation;
      once := false;
    }

    /** The first close takes the lease out of its generation's count, a later one changes nothing. */
    method Close()
      requires Valid()
      modifies this, generation
      ensures Valid() && once
      ensures generation.live == old(generation.live) - {this}
      ensures generation.View() ==
              if old(once) then old(generation.View()) else Released(old(generation.View()))
    {
      if !once {
        once := true;
        generation.Release(this);
      }
    }
  }
}
