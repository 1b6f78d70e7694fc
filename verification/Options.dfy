/** The Some/None datatype used wherever the source has "no value" (a failed parse,
    a regex that does not match, a stage of the cascade that produces nothing). */
module Options {

  datatype Option<+T> = None | Some(value: T)
}
