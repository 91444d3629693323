/** The optional value used for fetch outcomes and element lookups. */
module Wrappers {

  /** `None` stands for an absent value: a failed fetch or an element that is not in the page. */
  datatype Option<+T> = None | Some(value: T)
}
