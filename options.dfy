/** An optional value: `None` stands for the scheduler's "no candidate yet" sentinel and for an empty result. */
module Options {

  datatype Option<+T> = None | Some(value: T)
}
