/** Column types that several modules share (migrations/001_init.sql). */
module Schema {
  /** enquiries.status; a new row has the first value. */
  datatype Status = New | Contacted | Converted | Closed
}
