/** The nullable values of the client (`string | null`) as an Option. */
module Optional {
  datatype Option<+T> = None | Some(value: T)
}
