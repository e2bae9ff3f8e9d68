/** Outcomes shared by the model: a Python call either returns or raises. */
module Results {

  datatype Option<+T> = None | Some(value: T)

  datatype Outcome<+T> = Raised | Ok(value: T)
}
