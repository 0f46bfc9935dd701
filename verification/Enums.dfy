/** The scoped enumerations of the source.  A scoped enumeration is an integer with some named
    values: a value read back from a file may be unnamed, and then equals none of the names. */
module Enums {
  newtype Health = c: int | 0 <= c < 256 {
    static const HEALTHY: Health := 0
    static const DEGRADED: Health := 1
    static const UNHEALTHY: Health := 2
    static const UNAVAILABLE: Health := 3
    static const UNKNOWN: Health := 4
    predicate Named() { this < 5 }
  }

  newtype Readiness = c: int | 0 <= c < 256 {
    static const READY: Readiness := 0
    static const PARTIALLY_READY: Readiness := 1
    static const NOT_READY: Readiness := 2
    static const DRAINING: Readiness := 3
    static const REVALIDATION_REQUIRED: Readiness := 4
    static const UNKNOWN: Readiness := 5
    predicate Named() { this < 6 }
  }

  newtype Freshness = c: int | 0 <= c < 256 {
    static const CURRENT: Freshness := 0
    static const STALE: Freshness := 1
    static const REVALIDATION_REQUIRED: Freshness := 2
    static const UNKNOWN: Freshness := 3
  }

  newtype Reachability = c: int | 0 <= c < 256 {
    static const REACHABLE: Reachability := 0
    static const DEGRADED: Reachability := 1
    static const UNREACHABLE: Reachability := 2
    static const REVALIDATION_REQUIRED: Reachability := 3
    static const UNKNOWN: Reachability := 4
    predicate Named() { this < 5 }
  }

  newtype Lifecycle = c: int | 0 <= c < 256 {
    static const REGISTERING: Lifecycle := 0
    static const AVAILABLE: Lifecycle := 1
    static const DEGRADED: Lifecycle := 2
    static const DRAINING: Lifecycle := 3
    static const UNREADY: Lifecycle := 4
    static const STALE: Lifecycle := 5
    static const UNREACHABLE: Lifecycle := 6
    static const INVALIDATED: Lifecycle := 7
    static const SUPERSEDED: Lifecycle := 8
    static const TOMBSTONED: Lifecycle := 9
    static const RETIRED: Lifecycle := 10
    /** The lifecycles that `register_instance` and `query` treat as history. */
    predicate Terminal() { this == SUPERSEDED || this == TOMBSTONED || this == RETIRED || this == INVALIDATED }
  }

  newtype LeaseState = c: int | 0 <= c < 256 {
    static const ACTIVE: LeaseState := 0
    static const EXPIRED: LeaseState := 1
    static const REVOKED: LeaseState := 2
    static const REVALIDATION_REQUIRED: LeaseState := 3
    static const UNKNOWN: LeaseState := 4
  }

  newtype TransportKind = c: int | 0 <= c < 256 {
    static const TCP: TransportKind := 0
    static const LOCAL_IPC: TransportKind := 1
    static const IN_PROCESS: TransportKind := 3
  }

  newtype EvidenceKind = c: int | 0 <= c < 256 {
    static const MEASURED: EvidenceKind := 0
    static const REPORTED: EvidenceKind := 1
    static const DERIVED: EvidenceKind := 2
  }

  newtype ServiceKind = c: int | 0 <= c < 256 {
    static const UNKNOWN: ServiceKind := 16
  }

  newtype RuntimeKind = c: int | 0 <= c < 256 {
    static const UNKNOWN: RuntimeKind := 10
  }

  newtype VersionPolicy = c: int | 0 <= c < 256 {
    static const PREFER_RECENT: VersionPolicy := 4
  }

  newtype CapabilityKind = c: int | 0 <= c < 256

  newtype CapabilityValueKind = c: int | 0 <= c < 256 {
    static const BOOLEAN: CapabilityValueKind := 0
    static const INTEGER: CapabilityValueKind := 1
    static const REAL: CapabilityValueKind := 2
    static const RANGE: CapabilityValueKind := 3
    static const STRING: CapabilityValueKind := 4
    static const STRUCTURED: CapabilityValueKind := 5
    static const UNKNOWN: CapabilityValueKind := 6
  }
}
