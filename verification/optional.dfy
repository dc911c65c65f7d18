/** An optional value: `None` stands for a reading or an estimate that is absent. */
module Optional {

  datatype Option<+T> = None | Some(value: T)

}
