/** An optional value: the model of a TypeScript property that may be absent
    (`shortDescription?`, `featured?`). */
module Wrappers {

  datatype Option<+T> = None | Some(value: T)
}
