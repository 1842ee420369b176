module Tenancy {
  /** Installation and tenant, which every stored row belongs to. */
  datatype Namespace = Namespace(installation: string, tenant: string)
}
