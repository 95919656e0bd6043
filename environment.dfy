/** `EnvironmentBehavior`, the deployment stages of the current code, and their properties. */
module CoreEnvironment {

  datatype EnvironmentBehavior = Local | Staging | Testing | Production {
    predicate IsDebug() { this == Local || this == Staging || this == Testing }
    predicate IsTesting() { this == Testing }
    predicate IsDeployed() { this == Staging || this == Production }
  }

  /** Production is the only stage without debugging, and staging is both debugging and deployed. */
  lemma StageProperties(e: EnvironmentBehavior)
    ensures !e.IsDebug() <==> e == Production
    ensures e.IsTesting() ==> e.IsDebug() && !e.IsDeployed()
    ensures e.IsDebug() && e.IsDeployed() <==> e == Staging
    ensures e.IsDebug() || e.IsDeployed()
  {
  }
}

/** `Environment`, the older copy of the same enumeration. */
module ApiEnvironment {
  import CoreEnvironment

  datatype Environment = Local | Staging | Testing | Production {
    predicate IsDebug() { this == Local || this == Staging || this == Testing }
    predicate IsTesting() { this == Testing }
    predicate IsDeployed() { this == Staging || this == Production }

    /** The same-named stage of the current enumeration. */
    function Current(): CoreEnvironment.EnvironmentBehavior {
      match this
      case Local => CoreEnvironment.Local
      case Staging => CoreEnvironment.Staging
      case Testing => CoreEnvironment.Testing
      case Production => CoreEnvironment.Production
    }
  }

  /** Local is a debugging stage that is neither testing nor deployed. */
  lemma LocalIsOnlyDebug()
    ensures Local.IsDebug() && !Local.IsTesting() && !Local.IsDeployed()
  {
  }

  /** Both copies give every stage the same three properties. */
  lemma AgreesWithCurrent(e: Environment)
    ensures e.IsDebug() == e.Current().IsDebug()
    ensures e.IsTesting() == e.Current().IsTesting()
    ensures e.IsDeployed() == e.Current().IsDeployed()
  {
  }
}
