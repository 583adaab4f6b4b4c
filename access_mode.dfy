/** The access intent of a batch (Session.cs, enum AccessMode). */
module AccessModes {

  /** All five values of the C# enum, including the trailing sentinel that
      counts the real modes. Nothing in the core routes on the mode. */
  datatype AccessMode = Read | Write | Smart | Simple | NumSessionQueryModes
}
