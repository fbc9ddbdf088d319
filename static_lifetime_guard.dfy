/** A lifetime guard for the singleton of some type. Holding one proves that
    the singleton exists and outlives the guard; here it is an opaque token
    that only names the instance it guards. */
module StaticLifetime {

  datatype StaticLifetimeGuard<T> = StaticLifetimeGuard(instance: T)
}
