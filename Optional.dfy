/** A Java reference that may be `null`: `None` stands for `null`. */
module Optional {

  datatype Option<+T> = None | Some(value: T)
}
