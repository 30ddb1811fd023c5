/** Small shared vocabulary of the weather dashboard: optional values (the
    `dict.get(key)` absence of a JSON field, or a `None` return) and the fixed
    set of colour names the dashboard attaches to its labels. */
module Common {

  /** A value that may be absent. */
  datatype Option<+T> = None | Some(value: T) {

    /** The value, or `default` when absent: Python's `d.get(key, default)`. */
    function GetOr(default: T): T {
      match this
      case Some(v) => v
      case None => default
    }
  }

  /** The CSS colour names used by the prediction cards. */
  datatype Colour =
    | Blue | LightBlue | Green | LightGreen | Yellow | Orange | Red | DarkRed | LightGray
  {
    /** The colour as it is written into the page. */
    function Name(): string {
      match this
      case Blue => "blue"
      case LightBlue => "lightblue"
      case Green => "green"
      case LightGreen => "lightgreen"
      case Yellow => "yellow"
      case Orange => "orange"
      case Red => "red"
      case DarkRed => "darkred"
      case LightGray => "lightgray"
    }
  }
}
