/** The legacy quantity types and the legacy two-domain grouping. */
module LegacyDomains {

  /** The legacy quantity types. */
  datatype LegacyQuantityType = HeartRate | Steps | Distance | BasalEnergy | ActiveEnergy

  datatype LegacyDomain = Fitness | Cardio {
    function AssociatedTypes(): seq<LegacyQuantityType> {
      match this
      case Fitness => [Steps, Distance, BasalEnergy, ActiveEnergy]
      case Cardio => [HeartRate]
    }

    predicate Contains(t: LegacyQuantityType) {
      t in AssociatedTypes()
    }
  }

  /** The legacy domain of each quantity type, stated type by type. */
  function LegacyDomainOf(t: LegacyQuantityType): LegacyDomain {
    match t
    case HeartRate => Cardio
    case Steps => Fitness
    case Distance => Fitness
    case BasalEnergy => Fitness
    case ActiveEnergy => Fitness
  }

  /** A legacy domain contains a type exactly when it is that type's domain:
      every type is in exactly one domain, and the two lists are disjoint. */
  lemma ContainsIffLegacyDomainOf(d: LegacyDomain, t: LegacyQuantityType)
    ensures d.Contains(t) <==> LegacyDomainOf(t) == d
  {
  }

  /** Cardio holds only heart rate; fitness the four activity types. */
  lemma LegacyDomainContents(t: LegacyQuantityType)
    ensures Cardio.Contains(t) <==> t == HeartRate
    ensures Fitness.Contains(t) <==> t in {Steps, Distance, BasalEnergy, ActiveEnergy}
    ensures !(Cardio.Contains(t) && Fitness.Contains(t))
    ensures Cardio.Contains(t) || Fitness.Contains(t)
  {
  }
}
