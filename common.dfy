/** Types shared by the stubbing and the verification parts of the mock engine. */
module Common {

  datatype Option<+T> = None | Some(value: T)

  /** An opaque token for one method of the mocked interface: only compared for equality. */
  datatype MethodId = MethodId(id: nat)

  /** An opaque tag standing for the callback function handed to `Do`. */
  datatype Callback = Callback(id: nat)
}
