/** Small shared types: optional values, routable identifiers, and the signals
    that state machines exchange. */
module Base {
  datatype Option<+T> = None | Some(value: T)

  /** `kind` routes a signal to its state machine, `uuid` tells apart machines
      of the same kind; the nil uuid is 0. */
  datatype StateId<K> = StateId(kind: K, uuid: nat) {
    predicate IsNil() {
      uuid == 0
    }
  }

  datatype Signal<Id, Input> = Signal(id: Id, input: Input)
}
