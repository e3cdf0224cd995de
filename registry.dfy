/**
 * The driver registry (`writer/drivers/registry/registry.go`): a table from
 * driver names to constructors that each driver fills in when it loads.
 */
module Registry {

  /** The table `NewFuncs`, over constructors of type `F`. */
  class Registry<F> {
    var newFuncs: map<string, F>

    /** The empty table the package starts with. */
    constructor ()
      ensures newFuncs == map[]
    {
      newFuncs := map[];
    }

    /**
     * `Register`: makes `f` the constructor for `name`, replacing an earlier one,
     * and leaves every other name's entry as it was.
     */
    method Register(name: string, f: F)
      modifies this
      ensures newFuncs == old(newFuncs)[name := f]
      ensures name in newFuncs && newFuncs[name] == f
      ensures newFuncs.Keys == old(newFuncs.Keys) + {name}
      ensures forall n :: n in old(newFuncs) && n != name ==> n in newFuncs && newFuncs[n] == old(newFuncs)[n]
    {
      newFuncs := newFuncs[name := f];
    }
  }

  /** Of two registrations under one name, the later one wins. */
  lemma LastRegistrationWins<F>(table: map<string, F>, name: string, f: F, g: F)
    ensures table[name := f][name := g] == table[name := g]
  {
  }
}
