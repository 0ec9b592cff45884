/** The Some/None datatype standing in for pandas' missing values (NaN, NaT). */
module Optional {

  datatype Option<+T> = None | Some(value: T)
}
