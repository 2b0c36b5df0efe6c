/** The four danger levels and their order (core/enums.py). */
module Risk {
  datatype RiskLevel = Read | Write | Privileged | Destructive {
    function Rank(): nat {
      match this
      case Read => 0
      case Write => 1
      case Privileged => 2
      case Destructive => 3
    }

    predicate AtLeast(other: RiskLevel) {
      Rank() >= other.Rank()
    }
  }

  /** `RiskLevel.max(a, b)`: the first of the highest-ranked. */
  function Worse(a: RiskLevel, b: RiskLevel): RiskLevel {
    if b.Rank() > a.Rank() then b else a
  }
}
