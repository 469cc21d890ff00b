/** Players as the plugin identifies them. */
module Players {

  /** A player id (java.util.UUID): two 64-bit halves, compared by value. */
  datatype Uuid = Uuid(mostSigBits: int, leastSigBits: int)
}
