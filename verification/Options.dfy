/** The optional value used throughout the model, in the place of the source's `Option` and SQL `NULL`. */
module Options {
  datatype Option<T> = None | Some(value: T) {
    /** `self.or(other)`, and SQL's `COALESCE(self, other)`. */
    function Or(other: Option<T>): Option<T> {
      if Some? then this else other
    }

    function GetOr(default: T): T {
      if Some? then value else default
    }
  }
}
