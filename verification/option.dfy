/** The Some/None datatype used wherever the Python code returns None or
    raises on a missing key. */
module Optional {

  datatype Option<+T> = None | Some(value: T)
}
