/** An optional value: what JavaScript writes as `undefined` versus a present value. */
module Options {

  datatype Option<+T> = None | Some(value: T)
}
