/** The two enumerations of the plugin. */
module Enums {

  /** Kind of claim on a bag page: the owner's own claim outranks an administrator's. */
  datatype LockType = OWNER | ADMIN

  /** Mode in which a bag page is opened. */
  datatype AccessMode = EDIT | READ_ONLY
}
