/** Effect classification of the ff-memless-next layer: which force-feedback
    effect types are superposed into the single combined effect, which are
    passed one by one to the hardware-specific driver, and which drive the
    rumble motors. */
module Effects {

  /** The force-feedback effect types the layer handles (the FF_* types of the
      kernel's input API). */
  datatype EffectType =
    | Constant | Periodic | Ramp
    | Damper | Friction | Inertia | Spring
    | Rumble

  /** The part of a `struct ff_effect` this model keeps: its type. Direction,
      replay, envelope and waveform parameters only matter to the force
      arithmetic, which is not modelled. */
  datatype FfEffect = FfEffect(kind: EffectType)

  datatype Category = Combinable | Uncombinable | RumbleMotors

  /** The effects the header names as addable into one combined effect. */
  const CombinableTypes: set<EffectType> := {Constant, Periodic, Ramp}

  /** The conditional effects, which the header names as uncombinable. */
  const UncombinableTypes: set<EffectType> := {Damper, Friction, Inertia, Spring}

  /** The category an effect type is routed to. */
  function Classify(t: EffectType): (c: Category)
    ensures c == Combinable <==> t in CombinableTypes
    ensures c == Uncombinable <==> t in UncombinableTypes
    ensures c == RumbleMotors <==> t == Rumble
  {
    match t
    case Constant | Periodic | Ramp => Combinable
    case Damper | Friction | Inertia | Spring => Uncombinable
    case Rumble => RumbleMotors
  }

  /** The three categories split the effect types: combinable and
      uncombinable effects are disjoint, rumble is in neither, and every
      type is in one of them. */
  lemma CategoriesPartition(t: EffectType)
    ensures CombinableTypes !! UncombinableTypes
    ensures Rumble !in CombinableTypes && Rumble !in UncombinableTypes
    ensures t in CombinableTypes || t in UncombinableTypes || t == Rumble
  {
  }
}
