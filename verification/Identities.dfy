/** The authenticated caller (shared/identity/identity.go). */
module Identities {

  /** The closed set of roles; any other role string is kept as Unknown. */
  datatype Role = Admin | Supplier | WarehouseManager | Analyst | Unknown(name: string)

  predicate ValidRole(r: Role) {
    !r.Unknown?
  }

  datatype Identity = Identity(tenant: string, user: string, role: Role, region: string, supplier: string)
}
