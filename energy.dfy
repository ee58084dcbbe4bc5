/** The energy draws the items ask of their stack. The energy container that
    answers them is not part of this model: whether a draw succeeds, and
    whether the stack holds energy or is empowered, are inputs. */
module Energy {

  /** One call of `useEnergy`. */
  datatype Draw =
    /** At the empowered or the base rate, for real or only simulated. */
    | Draw(empowered: bool, simulate: bool)
    /** At the empowered or the base rate on behalf of an entity, which lets
        the container decide whether the draw is simulated. */
    | DrawFor(empowered: bool)
}
