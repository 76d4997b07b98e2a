/** A nullable value: the JavaScript `null` of the timers in the model. */
module Optional {

  datatype Option<+T> = None | Some(value: T)
}
